/** `populateTemplate`: placing user code and rendered test cases into a wrapper template. */
module PopulateTemplate {
  import opened Wrappers
  import opened Json
  import opened Enums
  import opened Dtos
  import Decimal

  const UserCodePlaceholder: string := "{{__USER_CODE__}}"
  const TestCasesPlaceholder: string := "{{__TESTCASES_JSON__}}"

  predicate OccursAt(s: string, pattern: string, i: nat) {
    i + |pattern| <= |s| && s[i..i + |pattern|] == pattern
  }

  /** The first position, from `i` on, where `pattern` occurs in `s`. */
  function IndexOfFrom(s: string, pattern: string, i: nat): (r: Option<nat>)
    requires i <= |s|
    ensures r.Some? ==>
      && i <= r.value && OccursAt(s, pattern, r.value)
      && forall j :: i <= j < r.value ==> !OccursAt(s, pattern, j)
    ensures r.None? ==> forall j :: i <= j ==> !OccursAt(s, pattern, j)
    decreases |s| - i
  {
    if OccursAt(s, pattern, i) then Some(i)
    else if i == |s| then None
    else IndexOfFrom(s, pattern, i + 1)
  }

  /** `s.replace(pattern, replacement)` with a string pattern: only the first occurrence is replaced. */
  function ReplaceFirst(s: string, pattern: string, replacement: string): string {
    match IndexOfFrom(s, pattern, 0)
    case None => s
    case Some(i) => s[..i] + replacement + s[i + |pattern|..]
  }

  /** Without an occurrence nothing changes; otherwise the text before the first occurrence and
      everything after it (later occurrences included) are kept, and the occurrence is replaced. */
  lemma ReplaceFirstOnlyFirst(s: string, pattern: string, replacement: string)
    ensures (forall j :: !OccursAt(s, pattern, j)) ==> ReplaceFirst(s, pattern, replacement) == s
    ensures forall i: nat :: OccursAt(s, pattern, i) && (forall j :: 0 <= j < i ==> !OccursAt(s, pattern, j)) ==>
      var r := ReplaceFirst(s, pattern, replacement);
      && r == s[..i] + replacement + s[i + |pattern|..]
      && r[..i] == s[..i]
      && r[i..i + |replacement|] == replacement
      && r[i + |replacement|..] == s[i + |pattern|..]
  {
    forall i: nat | OccursAt(s, pattern, i) && (forall j :: 0 <= j < i ==> !OccursAt(s, pattern, j)) {
      ReplaceFirstAt(s, pattern, replacement, i);
    }
  }

  lemma ReplaceFirstAt(s: string, pattern: string, replacement: string, i: nat)
    requires OccursAt(s, pattern, i) && forall j :: 0 <= j < i ==> !OccursAt(s, pattern, j)
    ensures var r := ReplaceFirst(s, pattern, replacement);
      && r == s[..i] + replacement + s[i + |pattern|..]
      && r[..i] == s[..i]
      && r[i..i + |replacement|] == replacement
      && r[i + |replacement|..] == s[i + |pattern|..]
  {
    assert IndexOfFrom(s, pattern, 0) == Some(i);
    var r := s[..i] + replacement + s[i + |pattern|..];
    assert r[..i] == s[..i];
    assert r[i..i + |replacement|] == replacement;
    assert r[i + |replacement|..] == s[i + |pattern|..];
  }

  /** The expansion of a replacement string with no capture groups, as ECMAScript's `GetSubstitution`
      performs it: `$$` gives `$`, `$&` the matched text, `` $` `` the text before the match and `$'` the
      text after it; any other `$` is kept as it is. */
  function Substitution(replacement: string, matched: string, before: string, after: string): string
    decreases |replacement|
  {
    if |replacement| == 0 then ""
    else if replacement[0] == '$' && |replacement| >= 2 && replacement[1] in "$&`'" then
      var expansion :=
        if replacement[1] == '$' then "$"
        else if replacement[1] == '&' then matched
        else if replacement[1] == '`' then before
        else after;
      expansion + Substitution(replacement[2..], matched, before, after)
    else [replacement[0]] + Substitution(replacement[1..], matched, before, after)
  }

  /** A replacement without `$` is inserted verbatim. */
  lemma {:induction false} SubstitutionWithoutDollar(replacement: string, matched: string, before: string, after: string)
    requires '$' !in replacement
    ensures Substitution(replacement, matched, before, after) == replacement
    decreases |replacement|
  {
    if |replacement| > 0 {
      assert replacement == [replacement[0]] + replacement[1..];
      SubstitutionWithoutDollar(replacement[1..], matched, before, after);
    }
  }

  /** `s.replace(pattern, replacement)` exactly as JavaScript evaluates it: the first occurrence is replaced
      by the replacement's `$`-expansion. */
  function ReplaceFirstAsWritten(s: string, pattern: string, replacement: string): (r: string)
    ensures '$' !in replacement ==> r == ReplaceFirst(s, pattern, replacement)
  {
    match IndexOfFrom(s, pattern, 0)
    case None => s
    case Some(i) =>
      SubstitutionWithoutDollarWhenAbsent(replacement, pattern, s[..i], s[i + |pattern|..]);
      s[..i] + Substitution(replacement, pattern, s[..i], s[i + |pattern|..]) + s[i + |pattern|..]
  }

  lemma SubstitutionWithoutDollarWhenAbsent(replacement: string, matched: string, before: string, after: string)
    ensures '$' !in replacement ==> Substitution(replacement, matched, before, after) == replacement
  {
    if '$' !in replacement {
      SubstitutionWithoutDollar(replacement, matched, before, after);
    }
  }

  /** Code containing `'$'` is spliced as written: in `A{{__USER_CODE__}}B` the user code `'$'` becomes
      `'B`, the text after the placeholder, where the code itself was meant to appear. */
  lemma DollarQuoteSplicesTemplate()
    ensures ReplaceFirstAsWritten("A" + UserCodePlaceholder + "B", UserCodePlaceholder, "'$'") == "A'BB"
    ensures ReplaceFirst("A" + UserCodePlaceholder + "B", UserCodePlaceholder, "'$'") == "A'$'B"
  {
    var s := "A" + UserCodePlaceholder + "B";
    assert !OccursAt(s, UserCodePlaceholder, 0) by {
      assert s[0] == 'A' && UserCodePlaceholder[0] == '{';
      assert s[..|UserCodePlaceholder|][0] == s[0];
    }
    assert s[1..1 + |UserCodePlaceholder|] == UserCodePlaceholder;
    assert IndexOfFrom(s, UserCodePlaceholder, 0) == Some(1);
    assert s[..1] == "A" && s[1 + |UserCodePlaceholder|..] == "B";
    assert Substitution("'$'", UserCodePlaceholder, "A", "B") == "'B" by {
      assert Substitution("$'", UserCodePlaceholder, "A", "B") == "B" + Substitution("", UserCodePlaceholder, "A", "B");
    }
  }

  /** `inputArray.join(", ")` for an array of integers. */
  function JoinInts(xs: seq<int>): string
    decreases |xs|
  {
    if |xs| == 0 then ""
    else if |xs| == 1 then Decimal.IntToString(xs[0])
    else JoinInts(xs[..|xs| - 1]) + ", " + Decimal.IntToString(xs[|xs| - 1])
  }

  /** `parts.join("\n")`. */
  function JoinLines(parts: seq<string>): string
    decreases |parts|
  {
    if |parts| == 0 then ""
    else if |parts| == 1 then parts[0]
    else JoinLines(parts[..|parts| - 1]) + "\n" + parts[|parts| - 1]
  }

  /** One Go test case as a struct literal. */
  function GoCase(input: seq<int>, output: seq<int>): string {
    "{\n            Input: []int{" + JoinInts(input) + "},\n            Output: []int{" + JoinInts(output) + "},\n        },"
  }

  /** A parsed test-case text used as `number[]`: an array of numbers. */
  function AsInts(j: Json): Option<seq<int>> {
    match j
    case JArr(items) =>
      if forall k :: 0 <= k < |items| ==> items[k].JNum? then Some(seq(|items|, k requires 0 <= k < |items| => items[k].n))
      else None
    case _ => None
  }

  /** Every case parsed as `{input, output}` for JavaScript and Python; `None` if a parse throws. */
  function CaseObjects(codec: JsonCodec, cases: seq<TestCase>): (r: Option<seq<Json>>)
    ensures r.Some? ==> |r.value| == |cases|
    ensures r.Some? ==> forall k :: 0 <= k < |cases| ==>
      && codec.parse(cases[k].input).Some? && codec.parse(cases[k].output).Some?
      && r.value[k] == JObj([("input", codec.parse(cases[k].input).value), ("output", codec.parse(cases[k].output).value)])
    ensures r.None? <==> exists k :: 0 <= k < |cases| && (codec.parse(cases[k].input).None? || codec.parse(cases[k].output).None?)
    decreases |cases|
  {
    if |cases| == 0 then Some([])
    else
      var input := codec.parse(cases[0].input);
      var output := codec.parse(cases[0].output);
      var rest := CaseObjects(codec, cases[1..]);
      if input.None? || output.None? then None
      else if rest.None? then
        assert exists k :: 0 <= k < |cases[1..]| && (codec.parse(cases[1..][k].input).None? || codec.parse(cases[1..][k].output).None?);
        None
      else
        Some([JObj([("input", input.value), ("output", output.value)])] + rest.value)
  }

  /** One case rendered as a Go struct literal; `None` if a text is not an array of numbers. */
  function GoBlock(codec: JsonCodec, t: TestCase): Option<string> {
    var input := codec.parse(t.input);
    var output := codec.parse(t.output);
    if input.Some? && output.Some? && AsInts(input.value).Some? && AsInts(output.value).Some? then
      Some(GoCase(AsInts(input.value).value, AsInts(output.value).value))
    else None
  }

  /** Every case rendered as a Go struct literal, in order; `None` if some case does not render. */
  function GoCases(codec: JsonCodec, cases: seq<TestCase>): (r: Option<seq<string>>)
    ensures r.Some? ==> |r.value| == |cases| && forall k :: 0 <= k < |cases| ==> GoBlock(codec, cases[k]) == Some(r.value[k])
    ensures r.None? <==> exists k :: 0 <= k < |cases| && GoBlock(codec, cases[k]).None?
    decreases |cases|
  {
    if |cases| == 0 then Some([])
    else
      var block := GoBlock(codec, cases[0]);
      var rest := GoCases(codec, cases[1..]);
      if block.None? then None
      else if rest.None? then
        assert exists k :: 0 <= k < |cases[1..]| && GoBlock(codec, cases[1..][k]).None?;
        None
      else Some([block.value] + rest.value)
  }

  /** `testCasesReplacement`; a `Failure` is the exception `JSON.parse` throws. */
  function TestCasesReplacement(codec: JsonCodec, language: Language, cases: seq<TestCase>): (r: Result<string, string>)
    ensures language != Go ==> (r.Failure? <==> CaseObjects(codec, cases).None?)
    ensures language == Go ==> (r.Failure? <==> exists k :: 0 <= k < |cases| && GoBlock(codec, cases[k]).None?)
  {
    if language != Go then
      match CaseObjects(codec, cases)
      case Some(objects) => Success(codec.render(JArr(objects)))
      case None => Failure("SyntaxError")
    else
      match GoCases(codec, cases)
      case Some(blocks) => Success(JoinLines(blocks))
      case None => Failure("SyntaxError")
  }

  /** `populateTemplate`: user code first, then the test cases, into the string that results. */
  function Populate(codec: JsonCodec, language: Language, template: string, userCode: string, cases: seq<TestCase>): (r: Result<string, string>)
    ensures r.Failure? <==> TestCasesReplacement(codec, language, cases).Failure?
  {
    match TestCasesReplacement(codec, language, cases)
    case Failure(e) => Failure(e)
    case Success(replacement) =>
      Success(ReplaceFirst(ReplaceFirst(template, UserCodePlaceholder, userCode), TestCasesPlaceholder, replacement))
  }

  /** For Go an empty list renders as the empty string. */
  lemma GoEmptyCases(codec: JsonCodec)
    ensures TestCasesReplacement(codec, Go, []) == Success("")
  {
  }

  /** For Go the blocks are joined by newlines: a list renders as its prefix, a newline, then its last block. */
  lemma {:induction false} GoCasesJoined(codec: JsonCodec, cases: seq<TestCase>, input: seq<int>, output: seq<int>, last: TestCase)
    requires GoCases(codec, cases).Some? && |cases| > 0
    requires codec.parse(last.input).Some? && AsInts(codec.parse(last.input).value) == Some(input)
    requires codec.parse(last.output).Some? && AsInts(codec.parse(last.output).value) == Some(output)
    ensures TestCasesReplacement(codec, Go, cases + [last])
      == Success(TestCasesReplacement(codec, Go, cases).value + "\n" + GoCase(input, output))
    decreases |cases|
  {
    var all := cases + [last];
    GoCasesSnoc(codec, cases, last);
    var blocks := GoCases(codec, all).value;
    assert blocks[..|blocks| - 1] == GoCases(codec, cases).value;
  }

  lemma GoCasesSnoc(codec: JsonCodec, cases: seq<TestCase>, last: TestCase)
    requires GoCases(codec, cases).Some? && GoBlock(codec, last).Some?
    ensures GoCases(codec, cases + [last]) == Some(GoCases(codec, cases).value + [GoBlock(codec, last).value])
  {
    var all := cases + [last];
    var r, b := GoCases(codec, cases).value, GoBlock(codec, last).value;
    forall k | 0 <= k < |all|
      ensures GoBlock(codec, all[k]).Some?
    {
      if k < |cases| {
        assert all[k] == cases[k];
      }
    }
    var v := GoCases(codec, all).value;
    forall k | 0 <= k < |v|
      ensures v[k] == (r + [b])[k]
    {
      if k < |cases| {
        assert all[k] == cases[k];
      }
    }
    assert v == r + [b];
  }

  /** For JavaScript and Python the test-case ids play no part: cases that differ only in ids render alike. */
  lemma JsonCasesIgnoreIds(codec: JsonCodec, language: Language, a: seq<TestCase>, b: seq<TestCase>)
    requires language != Go && |a| == |b|
    requires forall k :: 0 <= k < |a| ==> a[k].input == b[k].input && a[k].output == b[k].output
    ensures TestCasesReplacement(codec, language, a) == TestCasesReplacement(codec, language, b)
  {
    assert forall k :: 0 <= k < |a| ==>
      codec.parse(a[k].input) == codec.parse(b[k].input) && codec.parse(a[k].output) == codec.parse(b[k].output);
    var ra, rb := CaseObjects(codec, a), CaseObjects(codec, b);
    if ra.Some? {
      assert ra.value == rb.value;
    }
  }

  /** A template with neither placeholder comes back unchanged. */
  lemma NoPlaceholderUnchanged(codec: JsonCodec, language: Language, template: string, userCode: string, cases: seq<TestCase>)
    requires forall j :: !OccursAt(template, UserCodePlaceholder, j) && !OccursAt(template, TestCasesPlaceholder, j)
    requires TestCasesReplacement(codec, language, cases).Success?
    ensures Populate(codec, language, template, userCode, cases) == Success(template)
  {
    ReplaceFirstOnlyFirst(template, UserCodePlaceholder, userCode);
    ReplaceFirstOnlyFirst(template, TestCasesPlaceholder, TestCasesReplacement(codec, language, cases).value);
  }

  /** Replacing a whole string with a pattern equal to it yields the replacement. */
  lemma ReplaceWhole(s: string, replacement: string)
    ensures ReplaceFirst(s, s, replacement) == replacement
  {
    assert OccursAt(s, s, 0) by {
      assert s[0..|s|] == s;
    }
    assert s[..0] + replacement + s[|s|..] == replacement;
  }

  /** The test-case placeholder is looked for after the user code is in: a placeholder inside the
      user code is the one replaced. */
  lemma PlaceholderInUserCodeIsReplaced(codec: JsonCodec, language: Language, cases: seq<TestCase>)
    requires TestCasesReplacement(codec, language, cases).Success?
    ensures Populate(codec, language, UserCodePlaceholder, TestCasesPlaceholder, cases)
      == TestCasesReplacement(codec, language, cases)
  {
    ReplaceWhole(UserCodePlaceholder, TestCasesPlaceholder);
    ReplaceWhole(TestCasesPlaceholder, TestCasesReplacement(codec, language, cases).value);
  }
}
