/** Error messages the service returns and `mapMessageToGrpcStatus`, which turns them into RPC status codes. */
module GrpcStatus {

  /** `ExecutionResultErrorType`. */
  const SubmitCodeResultNotFound: string := "Submit code result not found"
  const RunCodeResultNotFound: string := "Run code result not found"
  const CustomCodeResultNotFound: string := "Custom code result not found"
  const UnauthorizedAccess: string := "Unauthorized access to execution details."

  /** The prefix every sanitizer error carries. */
  const SyntaxErrorPrefix: string := "Syntax Error:"

  /**
   * The texts of `SubmissionErrorType.SubmissionNotFound`, `ProblemErrorType.ProblemNotFound`
   * and `SystemErrorType.TooManyRequests`, whose enum files are not part of this model.
   */
  datatype ErrorTexts = ErrorTexts(submissionNotFound: string, problemNotFound: string, tooManyRequests: string)

  datatype Status = NotFound | InvalidArgument | ResourceExhausted | Unknown

  predicate StartsWith(s: string, prefix: string) {
    |prefix| <= |s| && s[..|prefix|] == prefix
  }

  /** The five not-found messages. */
  function NotFoundMessages(texts: ErrorTexts): set<string> {
    {texts.submissionNotFound, texts.problemNotFound,
     SubmitCodeResultNotFound, RunCodeResultNotFound, CustomCodeResultNotFound}
  }

  /** `mapMessageToGrpcStatus`: total; the first case that applies wins. */
  function MapMessageToGrpcStatus(texts: ErrorTexts, message: string): (s: Status)
    ensures s == NotFound <==> message in NotFoundMessages(texts)
    ensures s == InvalidArgument <==> message !in NotFoundMessages(texts) && StartsWith(message, SyntaxErrorPrefix)
    ensures s == ResourceExhausted <==>
      message !in NotFoundMessages(texts) && !StartsWith(message, SyntaxErrorPrefix) && message == texts.tooManyRequests
  {
    if message == texts.submissionNotFound || message == texts.problemNotFound
       || message == SubmitCodeResultNotFound || message == RunCodeResultNotFound
       || message == CustomCodeResultNotFound then NotFound
    else if StartsWith(message, SyntaxErrorPrefix) then InvalidArgument
    else if message == texts.tooManyRequests then ResourceExhausted
    else Unknown
  }

  /** Texts are well formed when the unseen enum values are not sanitizer-style messages. */
  predicate WellFormed(texts: ErrorTexts) {
    !StartsWith(texts.submissionNotFound, SyntaxErrorPrefix) && !StartsWith(texts.problemNotFound, SyntaxErrorPrefix)
  }

  /** Any message with the sanitizer prefix is an invalid argument. */
  lemma SyntaxErrorIsInvalidArgument(texts: ErrorTexts, message: string)
    requires WellFormed(texts) && StartsWith(message, SyntaxErrorPrefix)
    ensures MapMessageToGrpcStatus(texts, message) == InvalidArgument
  {
    assert message[1] == SyntaxErrorPrefix[1];
    assert message != SubmitCodeResultNotFound by { assert message[1] != SubmitCodeResultNotFound[1]; }
    assert message != RunCodeResultNotFound by { assert message[0] != RunCodeResultNotFound[0]; }
    assert message != CustomCodeResultNotFound by { assert message[0] != CustomCodeResultNotFound[0]; }
  }

  /** A refused pull answers `Unknown`: the unauthorized message is in no other case. */
  lemma UnauthorizedIsUnknown(texts: ErrorTexts)
    requires UnauthorizedAccess !in {texts.submissionNotFound, texts.problemNotFound, texts.tooManyRequests}
    ensures MapMessageToGrpcStatus(texts, UnauthorizedAccess) == Unknown
  {
    assert !StartsWith(UnauthorizedAccess, SyntaxErrorPrefix) by { assert UnauthorizedAccess[0] != SyntaxErrorPrefix[0]; }
  }

  /** The three result-not-found messages of the pull API map to `NotFound` whatever the other texts are. */
  lemma ResultNotFoundIsNotFound(texts: ErrorTexts)
    ensures MapMessageToGrpcStatus(texts, SubmitCodeResultNotFound) == NotFound
    ensures MapMessageToGrpcStatus(texts, RunCodeResultNotFound) == NotFound
    ensures MapMessageToGrpcStatus(texts, CustomCodeResultNotFound) == NotFound
  {
  }

  /** The rate-limit message is resource exhaustion unless an earlier case claims it. */
  lemma TooManyRequestsIsResourceExhausted(texts: ErrorTexts)
    requires texts.tooManyRequests !in NotFoundMessages(texts) && !StartsWith(texts.tooManyRequests, SyntaxErrorPrefix)
    ensures MapMessageToGrpcStatus(texts, texts.tooManyRequests) == ResourceExhausted
  {
  }
}
