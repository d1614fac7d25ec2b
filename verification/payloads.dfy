/**
 * The JSON documents that travel on Kafka and NATS: the job payloads the producer sends and the
 * execution results the workers publish. The Kafka handlers keep a result document as it
 * arrives and read single properties of it; the lemmas below say which property of a
 * worker's encoding reads back which field of its record.
 */
module Payloads {
  import opened Wrappers
  import opened Json
  import opened Dtos
  import opened Enums
  import opened JsValues

  function EncodeSubmissionResult(r: SubmissionResult): Json {
    JObj([
      ("problemId", Str(r.problemId)),
      ("submissionId", Str(r.submissionId)),
      ("userId", Str(r.userId)),
      ("executionResult", r.executionResult),
      ("executionTime", JNum(r.executionTime)),
      ("memoryUsage", JNum(r.memoryUsage)),
      ("status", Str(r.status)),
      ("score", JNum(r.score))])
  }

  function EncodeRunResult(r: RunResult): Json {
    JObj([
      ("problemId", Str(r.problemId)),
      ("userId", Str(r.userId)),
      ("tempId", Str(r.tempId))]
      + (if r.stdOut.Some? then [("stdOut", Str(r.stdOut.value))] else [])
      + [
      ("status", Str(r.status)),
      ("executionTime", JNum(r.executionTime)),
      ("memoryUsage", JNum(r.memoryUsage)),
      ("executionResult", r.executionResult)])
  }

  function EncodeCustomResult(r: CustomResult): Json {
    JObj([
      ("tempId", Str(r.tempId)),
      ("stdOut", Str(r.stdOut)),
      ("status", Str(r.status)),
      ("executionTime", JNum(r.executionTime)),
      ("memoryUsage", JNum(r.memoryUsage)),
      ("executionResult", r.executionResult)])
  }

  /** The identifiers and the raw result of an encoded submission result read back. */
  lemma SubmissionResultLeadingFields(r: SubmissionResult)
    ensures var f := EncodeSubmissionResult(r).fields;
      && Lookup(f, "problemId") == Some(Str(r.problemId))
      && Lookup(f, "submissionId") == Some(Str(r.submissionId))
      && Lookup(f, "userId") == Some(Str(r.userId))
      && Lookup(f, "executionResult") == Some(r.executionResult)
  {
    var f := EncodeSubmissionResult(r).fields;
    LookupAt(f, "problemId", 0);
    LookupAt(f, "submissionId", 1);
    LookupAt(f, "userId", 2);
    LookupAt(f, "executionResult", 3);
  }

  /** The measurements, the status and the score of an encoded submission result read back. */
  lemma SubmissionResultTrailingFields(r: SubmissionResult)
    ensures var f := EncodeSubmissionResult(r).fields;
      && Lookup(f, "executionTime") == Some(JNum(r.executionTime))
      && Lookup(f, "memoryUsage") == Some(JNum(r.memoryUsage))
      && Lookup(f, "status") == Some(Str(r.status))
      && Lookup(f, "score") == Some(JNum(r.score))
  {
    var f := EncodeSubmissionResult(r).fields;
    LookupAt(f, "executionTime", 4);
    LookupAt(f, "memoryUsage", 5);
    LookupAt(f, "status", 6);
    LookupAt(f, "score", 7);
  }

  /** The identifiers and the optional output of an encoded run result read back. */
  lemma RunResultLeadingFields(r: RunResult)
    ensures var f := EncodeRunResult(r).fields;
      && Lookup(f, "problemId") == Some(Str(r.problemId))
      && Lookup(f, "userId") == Some(Str(r.userId))
      && Lookup(f, "tempId") == Some(Str(r.tempId))
      && Lookup(f, "stdOut") == (if r.stdOut.Some? then Some(Str(r.stdOut.value)) else None)
  {
    var f := EncodeRunResult(r).fields;
    LookupAt(f, "problemId", 0);
    LookupAt(f, "userId", 1);
    LookupAt(f, "tempId", 2);
    if r.stdOut.Some? {
      LookupAt(f, "stdOut", 3);
    } else {
      LookupAbsent(f, "stdOut");
    }
  }

  /** The status, the measurements and the raw result of an encoded run result read back. */
  lemma RunResultTrailingFields(r: RunResult)
    ensures var f := EncodeRunResult(r).fields;
      && Lookup(f, "status") == Some(Str(r.status))
      && Lookup(f, "executionTime") == Some(JNum(r.executionTime))
      && Lookup(f, "memoryUsage") == Some(JNum(r.memoryUsage))
      && Lookup(f, "executionResult") == Some(r.executionResult)
  {
    var f := EncodeRunResult(r).fields;
    if r.stdOut.Some? {
      LookupAt(f, "status", 4);
      LookupAt(f, "executionTime", 5);
      LookupAt(f, "memoryUsage", 6);
      LookupAt(f, "executionResult", 7);
    } else {
      LookupAt(f, "status", 3);
      LookupAt(f, "executionTime", 4);
      LookupAt(f, "memoryUsage", 5);
      LookupAt(f, "executionResult", 6);
    }
  }

  /** A test case as it appears in a job payload. */
  function EncodeTestCase(tc: TestCase): Json {
    JObj([("Id", Str(tc.id)), ("input", Str(tc.input)), ("output", Str(tc.output))])
  }

  function EncodeTestCases(cases: seq<TestCase>): (j: Json)
    ensures j.JArr? && |j.items| == |cases|
    ensures forall k :: 0 <= k < |cases| ==> j.items[k] == EncodeTestCase(cases[k])
  {
    JArr(seq(|cases|, k requires 0 <= k < |cases| => EncodeTestCase(cases[k])))
  }

  /** `ISubmissionExecJobPayload`. */
  function SubmissionJob(submissionId: string, executableCode: string, language: Language, userId: string, testCases: seq<TestCase>): Json {
    JObj([
      ("submissionId", Str(submissionId)),
      ("executableCode", Str(executableCode)),
      ("language", Str(LanguageName(language))),
      ("userId", Str(userId)),
      ("testCases", EncodeTestCases(testCases))])
  }

  /** `{...request, tempId, executableCode, language}`: the spread keeps the request's key order and
      `language` is overwritten in place with the language name. */
  function RunJob(request: RunCodeExecRequest, tempId: string, executableCode: string, language: Language): Json {
    JObj([
      ("problemId", Str(request.problemId)),
      ("userId", Str(request.userId)),
      ("language", Str(LanguageName(language))),
      ("userCode", Str(request.userCode)),
      ("testCases", EncodeTestCases(request.testCases)),
      ("tempId", Str(tempId)),
      ("executableCode", Str(executableCode))])
  }

  /** `ICustomCodeExecJobPayload`: exactly language, tempId and user code. */
  function CustomJob(language: Language, tempId: string, userCode: string): Json {
    JObj([("language", Str(LanguageName(language))), ("tempId", Str(tempId)), ("userCode", Str(userCode))])
  }

  /** The run job carries the fresh id, the language name and the request's code and test cases. */
  lemma RunJobFields(request: RunCodeExecRequest, tempId: string, executableCode: string, language: Language)
    ensures Lookup(RunJob(request, tempId, executableCode, language).fields, "tempId") == Some(Str(tempId))
    ensures Lookup(RunJob(request, tempId, executableCode, language).fields, "language") == Some(Str(LanguageName(language)))
    ensures Lookup(RunJob(request, tempId, executableCode, language).fields, "userCode") == Some(Str(request.userCode))
    ensures Lookup(RunJob(request, tempId, executableCode, language).fields, "testCases") == Some(EncodeTestCases(request.testCases))
  {
    var f := RunJob(request, tempId, executableCode, language).fields;
    LookupAt(f, "language", 2);
    LookupAt(f, "userCode", 3);
    RunJobLaterFields(request, tempId, executableCode, language);
  }

  /** The test cases and the fresh id sit after the spread request's own fields. */
  lemma RunJobLaterFields(request: RunCodeExecRequest, tempId: string, executableCode: string, language: Language)
    ensures Lookup(RunJob(request, tempId, executableCode, language).fields, "testCases") == Some(EncodeTestCases(request.testCases))
    ensures Lookup(RunJob(request, tempId, executableCode, language).fields, "tempId") == Some(Str(tempId))
  {
    var f := RunJob(request, tempId, executableCode, language).fields;
    LookupAt(f, "testCases", 4);
    LookupAt(f, "tempId", 5);
  }
}
