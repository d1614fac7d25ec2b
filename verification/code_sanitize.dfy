/**
 * `CodeSanitizer`: a data-driven check of user code against a table of dangerous patterns.
 * Regular-expression matching is an external predicate `matches(pattern, code)`.
 */
module CodeSanitize {
  import opened Wrappers
  import opened Enums
  import Decimal
  import GrpcStatus

  /** `MAX_CODE_LENGTH`. */
  const MaxCodeLength: nat := 10000

  /** The UTF-16 code units a character takes: two for a character outside the Basic Multilingual Plane. */
  function Utf16Units(c: char): nat {
    if c as int >= 0x1_0000 then 2 else 1
  }

  /** `s.length` of a JavaScript string: its number of UTF-16 code units. */
  function Utf16Length(s: string): nat
    decreases |s|
  {
    if |s| == 0 then 0 else Utf16Length(s[..|s| - 1]) + Utf16Units(s[|s| - 1])
  }

  /** A regular expression: its source text and whether it ignores case. */
  datatype Pattern = Pattern(source: string, ignoreCase: bool)

  datatype Category = Category(name: string, description: string, patterns: seq<Pattern>)

  /** `ILanguagePatterns`: common categories, and categories per language (a language may be missing). */
  datatype PatternTable = PatternTable(common: seq<Category>, language: map<Language, seq<Category>>)

  /** `{ isValid, error? }`. */
  datatype Verdict = Verdict(isValid: bool, error: Option<string>)

  type Matcher = (Pattern, string) -> bool

  /** `DANGEROUS_PATTERNS`: the common categories, then one list per language. */
  const DangerousPatterns: PatternTable := PatternTable(
    [
      Category("Infinite Loops & Resource Depletion",
        "Code patterns that can lead to resource exhaustion.",
        [Pattern("while\\s*\\(\\s*true\\s*\\)", true),
         Pattern("for\\s*\\(\\s*;\\s*;\\s*\\)", false),
         Pattern("\\.repeat\\s*\\(\\s*Infinity\\s*\\)", true)]),
      Category("Fork Bombs",
        "Patterns that create an excessive number of processes.",
        [Pattern("while\\s*\\(\\s*true\\s*\\)\\s*\\{\\s*fork\\s*\\(\\s*\\)", true),
         Pattern("os\\.fork\\(", false),
         Pattern("Process\\.fork\\(", false),
         Pattern("cluster\\.fork\\(", false),
         Pattern("multiprocessing\\.Process", false)])
    ],
    map[
      JavaScript := [
        Category("Dangerous Modules",
          "Disallows importing core Node.js modules that can interact with the OS.",
          [Pattern("require\\s*\\(\\s*['\"`]fs['\"`]\\s*\\)", false),
           Pattern("require\\s*\\(\\s*['\"`]child_process['\"`]\\s*\\)", false),
           Pattern("require\\s*\\(\\s*['\"`]os['\"`]\\s*\\)", false),
           Pattern("require\\s*\\(\\s*['\"`]net['\"`]\\s*\\)", false),
           Pattern("require\\s*\\(\\s*['\"`]http['\"`]\\s*\\)", false),
           Pattern("import\\s+.*\\s+from\\s+['\"`]fs['\"`]", false),
           Pattern("import\\s+.*\\s+from\\s+['\"`]child_process['\"`]", false)]),
        Category("Dangerous Globals & Operations",
          "Disallows access to global objects and functions that can be abused.",
          [Pattern("\\bprocess\\b", false),
           Pattern("\\bglobal\\b", false),
           Pattern("\\bFunction\\s*\\(", false),
           Pattern("\\beval\\s*\\(", false),
           Pattern("\\bwindow\\b", false),
           Pattern("\\bdocument\\b", false),
           Pattern("\\blocalStorage\\b", false),
           Pattern("\\bWebSocket\\b", false)])
      ],
      Python := [
        Category("Dangerous Modules",
          "Disallows importing Python modules that can interact with the OS.",
          [Pattern("import\\s+os", false),
           Pattern("import\\s+subprocess", false),
           Pattern("import\\s+sys", false),
           Pattern("import\\s+shutil", false),
           Pattern("from\\s+os\\s+import", false)]),
        Category("Dangerous Built-ins & Operations",
          "Disallows dangerous built-in functions and system calls.",
          [Pattern("__import__\\s*\\(", false),
           Pattern("open\\s*\\(", false),
           Pattern("eval\\s*\\(", false),
           Pattern("exec\\s*\\(", false),
           Pattern("os\\.system", false),
           Pattern("subprocess\\.run", false),
           Pattern("subprocess\\.Popen", false)])
      ],
      Go := [
        Category("Dangerous Packages",
          "Disallows importing Go packages that can interact with the OS.",
          [Pattern("\"os\"", false),
           Pattern("\"os\\/exec\"", false),
           Pattern("\"syscall\"", false),
           Pattern("\"net\"", false)]),
        Category("Dangerous OS Functions",
          "Disallows specific dangerous functions.",
          [Pattern("os\\.Remove", false),
           Pattern("os\\.RemoveAll", false),
           Pattern("os\\.Exit", false),
           Pattern("exec\\.Command", false),
           Pattern("syscall\\.Exec", false)])
      ]
    ])

  /** Index of the first pattern, from `i` on, that matches the code. */
  function FirstMatchFrom(patterns: seq<Pattern>, code: string, matches: Matcher, i: nat): (r: Option<nat>)
    requires i <= |patterns|
    ensures r.Some? ==>
              && i <= r.value < |patterns| && matches(patterns[r.value], code)
              && forall j :: i <= j < r.value ==> !matches(patterns[j], code)
    ensures r.None? <==> forall j :: i <= j < |patterns| ==> !matches(patterns[j], code)
    decreases |patterns| - i
  {
    if i == |patterns| then None
    else if matches(patterns[i], code) then Some(i)
    else FirstMatchFrom(patterns, code, matches, i + 1)
  }

  /** The pattern `#_findViolatingPattern` returns: the first one in list order that matches, if any. */
  function Violation(patterns: seq<Pattern>, code: string, matches: Matcher): (r: Option<Pattern>)
    ensures r.None? <==> forall j :: 0 <= j < |patterns| ==> !matches(patterns[j], code)
    ensures r.Some? ==>
              exists k :: && 0 <= k < |patterns| && patterns[k] == r.value && matches(r.value, code)
                          && forall j :: 0 <= j < k ==> !matches(patterns[j], code)
  {
    var k := FirstMatchFrom(patterns, code, matches, 0);
    if k.Some? then Some(patterns[k.value]) else None
  }

  /** `#_findViolatingPattern`: a first-match search with early return. */
  method FindViolatingPattern(code: string, patterns: seq<Pattern>, matches: Matcher) returns (p: Option<Pattern>)
    ensures p == Violation(patterns, code, matches)
  {
    var i := 0;
    while i < |patterns|
      invariant 0 <= i <= |patterns|
      invariant FirstMatchFrom(patterns, code, matches, i) == FirstMatchFrom(patterns, code, matches, 0)
    {
      if matches(patterns[i], code) {
        return Some(patterns[i]);
      }
      i := i + 1;
    }
    return None;
  }

  /** The first category, from `i` on, holding a matching pattern, with that pattern. */
  function FirstViolationFrom(categories: seq<Category>, code: string, matches: Matcher, i: nat): (r: Option<(nat, Pattern)>)
    requires i <= |categories|
    ensures r.Some? ==>
              && i <= r.value.0 < |categories|
              && Violation(categories[r.value.0].patterns, code, matches) == Some(r.value.1)
              && forall k :: i <= k < r.value.0 ==> Violation(categories[k].patterns, code, matches).None?
    ensures r.None? <==> forall k :: i <= k < |categories| ==> Violation(categories[k].patterns, code, matches).None?
    decreases |categories| - i
  {
    if i == |categories| then None
    else
      var v := Violation(categories[i].patterns, code, matches);
      if v.Some? then Some((i, v.value)) else FirstViolationFrom(categories, code, matches, i + 1)
  }

  /** The head every sanitizer message starts with. */
  const ErrorHead: string := GrpcStatus.SyntaxErrorPrefix + " "

  function LengthError(): string {
    ErrorHead + ("Code length exceeds maximum limit of " + Decimal.NatToString(MaxCodeLength) + " characters.")
  }

  function CommonError(c: Category, p: Pattern): string {
    ErrorHead + ("Prohibited operation detected: " + c.description + " (pattern: " + p.source + ")")
  }

  function UnsupportedError(language: Language): string {
    ErrorHead + ("Unsupported language for sanitization: " + LanguageName(language))
  }

  function LanguageError(language: Language, c: Category, p: Pattern): string {
    ErrorHead + ("Prohibited " + LanguageName(language) + " operation detected: " + c.description + " (pattern: " + p.source + ")")
  }

  /** The first character after the head tells the kinds of message apart. */
  function Kind(e: string): char
    requires |e| > |ErrorHead|
  {
    e[|ErrorHead|]
  }

  lemma HeadOf(rest: string)
    requires |rest| > 0
    ensures GrpcStatus.StartsWith(ErrorHead + rest, GrpcStatus.SyntaxErrorPrefix)
    ensures Kind(ErrorHead + rest) == rest[0]
  {
    assert (ErrorHead + rest)[..|GrpcStatus.SyntaxErrorPrefix|] == GrpcStatus.SyntaxErrorPrefix;
  }

  lemma Kinds(language: Language, c: Category, p: Pattern)
    ensures Kind(LengthError()) == 'C'
    ensures Kind(CommonError(c, p)) == 'P'
    ensures Kind(UnsupportedError(language)) == 'U'
    ensures Kind(LanguageError(language, c, p)) == 'P'
    ensures GrpcStatus.StartsWith(LengthError(), GrpcStatus.SyntaxErrorPrefix)
    ensures GrpcStatus.StartsWith(CommonError(c, p), GrpcStatus.SyntaxErrorPrefix)
    ensures GrpcStatus.StartsWith(UnsupportedError(language), GrpcStatus.SyntaxErrorPrefix)
    ensures GrpcStatus.StartsWith(LanguageError(language, c, p), GrpcStatus.SyntaxErrorPrefix)
  {
    HeadOf("Code length exceeds maximum limit of " + Decimal.NatToString(MaxCodeLength) + " characters.");
    HeadOf("Prohibited operation detected: " + c.description + " (pattern: " + p.source + ")");
    HeadOf("Unsupported language for sanitization: " + LanguageName(language));
    HeadOf("Prohibited " + LanguageName(language) + " operation detected: " + c.description + " (pattern: " + p.source + ")");
  }

  function Invalid(error: string): Verdict {
    Verdict(false, Some(error))
  }

  /** What `sanitize` returns: the length check, then common categories, then the language's own. */
  function SanitizeSpec(table: PatternTable, code: string, language: Language, matches: Matcher): Verdict {
    if Utf16Length(code) > MaxCodeLength then Invalid(LengthError())
    else
      var common := FirstViolationFrom(table.common, code, matches, 0);
      if common.Some? then Invalid(CommonError(table.common[common.value.0], common.value.1))
      else if language !in table.language then Invalid(UnsupportedError(language))
      else
        var categories := table.language[language];
        var own := FirstViolationFrom(categories, code, matches, 0);
        if own.Some? then Invalid(LanguageError(language, categories[own.value.0], own.value.1))
        else Verdict(true, None)
  }

  /** `sanitize`: two for-of loops over categories, each returning at the first violation. */
  method Sanitize(table: PatternTable, code: string, language: Language, matches: Matcher) returns (v: Verdict)
    ensures v == SanitizeSpec(table, code, language, matches)
  {
    if Utf16Length(code) > MaxCodeLength {
      return Invalid(LengthError());
    }
    var i := 0;
    while i < |table.common|
      invariant 0 <= i <= |table.common|
      invariant FirstViolationFrom(table.common, code, matches, i) == FirstViolationFrom(table.common, code, matches, 0)
    {
      var violation := FindViolatingPattern(code, table.common[i].patterns, matches);
      if violation.Some? {
        return Invalid(CommonError(table.common[i], violation.value));
      }
      i := i + 1;
    }
    if language !in table.language {
      return Invalid(UnsupportedError(language));
    }
    var categories := table.language[language];
    var j := 0;
    while j < |categories|
      invariant 0 <= j <= |categories|
      invariant FirstViolationFrom(categories, code, matches, j) == FirstViolationFrom(categories, code, matches, 0)
    {
      var violation := FindViolatingPattern(code, categories[j].patterns, matches);
      if violation.Some? {
        return Invalid(LanguageError(language, categories[j], violation.value));
      }
      j := j + 1;
    }
    return Verdict(true, None);
  }

  /** Every character counts once or twice: the length is the character count exactly when no character
      lies outside the Basic Multilingual Plane, and twice it when all do. */
  lemma {:induction false} Utf16LengthBounds(s: string)
    ensures |s| <= Utf16Length(s) <= 2 * |s|
    ensures Utf16Length(s) == |s| <==> forall i :: 0 <= i < |s| ==> s[i] as int < 0x1_0000
    ensures (forall i :: 0 <= i < |s| ==> s[i] as int >= 0x1_0000) ==> Utf16Length(s) == 2 * |s|
    decreases |s|
  {
    if |s| > 0 {
      var init := s[..|s| - 1];
      Utf16LengthBounds(init);
      assert forall i :: 0 <= i < |init| ==> init[i] == s[i];
    }
  }

  /** 5001 emoji are 5001 characters but 10002 code units: the length check refuses them. */
  lemma AstralCodeOverLimit(table: PatternTable, language: Language, matches: Matcher)
    ensures var code := seq(5001, _ => '\U{1F600}');
      |code| <= MaxCodeLength && SanitizeSpec(table, code, language, matches) == Invalid(LengthError())
  {
    var code := seq(5001, _ => '\U{1F600}');
    Utf16LengthBounds(code);
  }

  /** Valid exactly when the code is short enough, no common pattern matches, the language has
      an entry and none of its patterns match; an invalid verdict always carries an error. */
  lemma SanitizeValidIff(table: PatternTable, code: string, language: Language, matches: Matcher)
    ensures var v := SanitizeSpec(table, code, language, matches);
      (v.isValid <==>
        && Utf16Length(code) <= MaxCodeLength
        && (forall k :: 0 <= k < |table.common| ==> Violation(table.common[k].patterns, code, matches).None?)
        && language in table.language
        && (forall k :: 0 <= k < |table.language[language]| ==>
              Violation(table.language[language][k].patterns, code, matches).None?))
      && (v.isValid <==> v.error.None?)
  {
  }

  /** Code over the limit is refused before any pattern is tried, so the matcher is irrelevant;
      code of exactly the limit passes the length check. */
  lemma LengthCheckComesFirst(table: PatternTable, code: string, language: Language, m1: Matcher, m2: Matcher)
    ensures Utf16Length(code) > MaxCodeLength ==> SanitizeSpec(table, code, language, m1) == Invalid(LengthError())
    ensures Utf16Length(code) > MaxCodeLength ==> SanitizeSpec(table, code, language, m1) == SanitizeSpec(table, code, language, m2)
    ensures Utf16Length(code) == MaxCodeLength ==> SanitizeSpec(table, code, language, m1) != Invalid(LengthError())
  {
    if Utf16Length(code) == MaxCodeLength {
      ErrorStartsDifferently(table, code, language, m1);
    }
  }

  /** The length error is none of the other messages: its text after the prefix starts with "Code". */
  lemma ErrorStartsDifferently(table: PatternTable, code: string, language: Language, matches: Matcher)
    requires Utf16Length(code) <= MaxCodeLength
    ensures SanitizeSpec(table, code, language, matches) != Invalid(LengthError())
  {
    var common := FirstViolationFrom(table.common, code, matches, 0);
    if common.Some? {
      Kinds(language, table.common[common.value.0], common.value.1);
    } else if language !in table.language {
      Kinds(language, Category("", "", []), Pattern("", false));
    } else {
      var own := FirstViolationFrom(table.language[language], code, matches, 0);
      if own.Some? {
        Kinds(language, table.language[language][own.value.0], own.value.1);
      }
    }
  }

  /** A matching common pattern decides the verdict, whatever the language and its table entry. */
  lemma CommonBeforeLanguage(table: PatternTable, code: string, l1: Language, l2: Language, matches: Matcher)
    requires Utf16Length(code) <= MaxCodeLength
    requires exists k :: 0 <= k < |table.common| && Violation(table.common[k].patterns, code, matches).Some?
    ensures SanitizeSpec(table, code, l1, matches) == SanitizeSpec(table, code, l2, matches)
    ensures !SanitizeSpec(table, code, l1, matches).isValid
  {
  }

  /** A language without an entry is refused as unsupported, but only when no common pattern matched. */
  lemma UnsupportedOnlyAfterCommon(table: PatternTable, code: string, language: Language, matches: Matcher)
    requires Utf16Length(code) <= MaxCodeLength && language !in table.language
    ensures SanitizeSpec(table, code, language, matches) == Invalid(UnsupportedError(language))
      <==> forall k :: 0 <= k < |table.common| ==> Violation(table.common[k].patterns, code, matches).None?
  {
    var common := FirstViolationFrom(table.common, code, matches, 0);
    if common.Some? {
      Kinds(language, table.common[common.value.0], common.value.1);
    }
  }

  /** Every error of the sanitizer starts with the prefix the status mapper turns into INVALID_ARGUMENT. */
  lemma ErrorsAreSyntaxErrors(table: PatternTable, code: string, language: Language, matches: Matcher, texts: GrpcStatus.ErrorTexts)
    requires GrpcStatus.WellFormed(texts)
    ensures var v := SanitizeSpec(table, code, language, matches);
      v.error.Some? ==>
        && GrpcStatus.StartsWith(v.error.value, GrpcStatus.SyntaxErrorPrefix)
        && GrpcStatus.MapMessageToGrpcStatus(texts, v.error.value) == GrpcStatus.InvalidArgument
  {
    var v := SanitizeSpec(table, code, language, matches);
    if v.error.Some? {
      var common := FirstViolationFrom(table.common, code, matches, 0);
      if Utf16Length(code) > MaxCodeLength || common.Some? || language !in table.language {
        Kinds(language, if common.Some? then table.common[common.value.0] else Category("", "", []),
              if common.Some? then common.value.1 else Pattern("", false));
      } else {
        var own := FirstViolationFrom(table.language[language], code, matches, 0);
        Kinds(language, table.language[language][own.value.0], own.value.1);
      }
      GrpcStatus.SyntaxErrorIsInvalidArgument(texts, v.error.value);
    }
  }

  /** A language with an entry is never refused as unsupported. */
  lemma CoveredLanguageIsSupported(table: PatternTable, code: string, language: Language, matches: Matcher)
    requires language in table.language
    ensures SanitizeSpec(table, code, language, matches) != Invalid(UnsupportedError(language))
  {
    var common := FirstViolationFrom(table.common, code, matches, 0);
    Kinds(language, Category("", "", []), Pattern("", false));
    if common.Some? {
      Kinds(language, table.common[common.value.0], common.value.1);
    } else if Utf16Length(code) <= MaxCodeLength {
      var own := FirstViolationFrom(table.language[language], code, matches, 0);
      if own.Some? {
        Kinds(language, table.language[language][own.value.0], own.value.1);
      }
    }
  }

  /** The constant table has an entry for every language, so the unsupported branch never fires for it. */
  lemma DangerousPatternsCoverEveryLanguage(code: string, language: Language, matches: Matcher)
    ensures language in DangerousPatterns.language
    ensures SanitizeSpec(DangerousPatterns, code, language, matches) != Invalid(UnsupportedError(language))
  {
    assert DangerousPatterns.language.Keys == {JavaScript, Python, Go};
    CoveredLanguageIsSupported(DangerousPatterns, code, language, matches);
  }
}
