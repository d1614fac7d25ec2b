/**
 * The records the service exchanges: RPC requests, problem data returned by the problem
 * service, execution results coming back from the workers, and job payloads.
 * Where the source declares the same record twice with different fields (the result
 * interfaces in src/dtos and in the NATS listeners), the model keeps one record with
 * every field either declaration uses. Numbers are modelled as integers.
 */
module Dtos {
  import opened Wrappers
  import opened Json

  /** A test case as stored on a problem: its inputs and outputs are JSON texts. */
  datatype TestCase = TestCase(id: string, input: string, output: string)

  datatype TestcaseCollection = TestcaseCollection(run: seq<TestCase>, submit: seq<TestCase>)

  /** A wrapper template for one language code; an empty string is a missing template. */
  datatype TemplateCode = TemplateCode(language: int, submitWrapperCode: string, runWrapperCode: string)

  datatype Problem = Problem(
    id: string,
    title: string,
    difficulty: int,
    testcaseCollection: Option<TestcaseCollection>,
    templateCodes: seq<TemplateCode>)

  /** The submission the problem service creates. */
  datatype Submission = Submission(id: string)

  /** The workers' execution report (statistics, failed case, per-test results). The service only
      passes it on, so it is kept as the JSON document it arrives as. */
  type ExecutionResult = Json

  datatype SubmissionResult = SubmissionResult(
    problemId: string,
    submissionId: string,
    userId: string,
    executionResult: ExecutionResult,
    executionTime: int,
    memoryUsage: int,
    status: string,
    score: int)

  datatype RunResult = RunResult(
    problemId: string,
    userId: string,
    tempId: string,
    stdOut: Option<string>,
    status: string,
    executionTime: int,
    memoryUsage: int,
    executionResult: ExecutionResult)

  datatype CustomResult = CustomResult(
    tempId: string,
    stdOut: string,
    status: string,
    executionTime: int,
    memoryUsage: int,
    executionResult: ExecutionResult)

  /** `SubmitCodeExecRequest`; `language` is the RPC language code and `userCode` a JSON text. */
  datatype SubmitCodeExecRequest = SubmitCodeExecRequest(
    problemId: string,
    userId: string,
    userCode: string,
    language: int,
    country: string)

  /** `IRunCodeExecRequestDTO`. */
  datatype RunCodeExecRequest = RunCodeExecRequest(
    problemId: string,
    userId: string,
    language: int,
    userCode: string,
    testCases: seq<TestCase>)

  /** `ICustomCodeExecRequestDTO`. */
  datatype CustomCodeExecRequest = CustomCodeExecRequest(tempId: string, userCode: string, language: int)

  /** `ICreateSubmissionRequestDTO`. */
  datatype CreateSubmissionRequest = CreateSubmissionRequest(
    problemId: string,
    userCode: string,
    userId: string,
    country: Option<string>,
    language: int,
    title: string,
    difficulty: int)

  /** The `updateSubmission` request `{...data, Id: data.problemId}`: the result document spread out,
      with `Id` set to its problem id (`None` is `undefined`). */
  datatype UpdateSubmissionRequest = UpdateSubmissionRequest(id: Option<Json>, result: Json)

  /** What the service answers its RPC callers (`ResponseDTO`). */
  datatype ResponseData =
    | SubmissionCreated(submissionId: string)
    | JobQueued(tempId: string)
    | SubmitResultOut(submit: SubmitCodeResultOut)
    | RunResultOut(run: RunCodeResultOut)
    | CustomResultOut(custom: CustomCodeResultOut)

  datatype Response = Ok(data: ResponseData) | Err(errorMessage: string)

  /** The projections answered to clients: each field is the cached document's property, `None` where
      the document has none (`undefined`). */
  datatype SubmitCodeResultOut = SubmitCodeResultOut(
    executionResult: Option<Json>, executionTime: Option<Json>, memoryUsage: Option<Json>, status: Option<Json>)

  datatype RunCodeResultOut = RunCodeResultOut(
    executionResult: Option<Json>, executionTime: Option<Json>, memoryUsage: Option<Json>, status: Option<Json>,
    stdOut: Option<Json>)

  datatype CustomCodeResultOut = CustomCodeResultOut(executionTime: Option<Json>, memoryUsage: Option<Json>, stdOut: Option<Json>)
}
