/**
 * `ProducerService`: turns submit, run and custom requests into jobs on Kafka. Each request's
 * language is mapped and its code sanitized; submit and run then fetch the problem cache-aside,
 * pick the language's wrapper template and populate it before publishing the job.
 */
module ProducerService {
  import opened Wrappers
  import opened Json
  import opened Dtos
  import opened Enums
  import opened Cache
  import opened Payloads
  import opened JsValues
  import Decimal
  import opened GrpcStatus
  import CS = CodeSanitize
  import PT = PopulateTemplate
  import SubmissionMapper
  import K = KafkaManager
  import P = ProblemClient

  /** What a call does for its caller: answer with a response, or throw. */
  datatype Outcome = Returns(response: Response) | Throws

  /** Where the problem came from: the cache, the problem service, or nowhere. */
  datatype Resolved = Found(problem: Problem) | Missing | Malformed

  /** The cache-aside read: a truthy cached value is used as the problem, otherwise the catalogue answers. */
  function Resolve(cached: Option<CacheValue>, catalogue: map<string, Problem>, id: string): (r: Resolved)
    ensures Truthy(cached) ==> (r.Found? <==> cached.value.ProblemEntry?)
    ensures Truthy(cached) && r.Found? ==> r.problem == cached.value.problem
    ensures !Truthy(cached) ==> r == (if id in catalogue then Found(catalogue[id]) else Missing)
  {
    if Truthy(cached) then
      if cached.value.ProblemEntry? then Found(cached.value.problem) else Malformed
    else
      match P.CatalogueEntry(catalogue, id)
      case Some(p) => Found(p)
      case None => Missing
  }

  /** The entries after the cache-aside read: a fetched problem is written under its key. */
  function EntriesAfterRead(entries: map<string, CacheValue>, key: string, cached: Option<CacheValue>, resolved: Resolved): map<string, CacheValue> {
    if !Truthy(cached) && resolved.Found? then entries[key := ProblemEntry(resolved.problem)] else entries
  }

  /** The expiries after the cache-aside read. */
  function TtlsAfterRead(ttls: map<string, Expiry>, key: string, cached: Option<CacheValue>, resolved: Resolved): map<string, Expiry> {
    if !Truthy(cached) && resolved.Found? then ttls[key := ProblemDetailsExpiry] else ttls
  }

  /** `templateCodes.find(t => t.language === code)`: the first template for the language code. */
  function TemplateFor(codes: seq<TemplateCode>, code: int): Option<TemplateCode> {
    if |codes| == 0 then None
    else if codes[0].language == code then Some(codes[0])
    else TemplateFor(codes[1..], code)
  }

  /** `find` answers with the first template carrying the code, and with nothing exactly when none does. */
  lemma {:induction false} TemplateForIsFirstMatch(codes: seq<TemplateCode>, code: int)
    ensures TemplateFor(codes, code).None? <==> forall i :: 0 <= i < |codes| ==> codes[i].language != code
    ensures TemplateFor(codes, code).Some? ==>
      exists i :: (0 <= i < |codes| && codes[i] == TemplateFor(codes, code).value
        && codes[i].language == code && forall j :: 0 <= j < i ==> codes[j].language != code)
    decreases |codes|
  {
    if |codes| > 0 {
      if codes[0].language == code {
        assert codes[0] == TemplateFor(codes, code).value;
      } else {
        var rest := codes[1..];
        TemplateForIsFirstMatch(rest, code);
        if TemplateFor(rest, code).Some? {
          var i :| 0 <= i < |rest| && rest[i] == TemplateFor(rest, code).value
            && rest[i].language == code && forall j :: 0 <= j < i ==> rest[j].language != code;
          assert codes[i + 1] == rest[i];
        } else {
          assert forall i :: 1 <= i < |codes| ==> codes[i] == rest[i - 1];
        }
      }
    }
  }

  /** `populateTemplate(language, JSON.parse(wrapper), JSON.parse(userCode), cases)`; `None` where any step throws.
      The template must parse to a string (`replace` is a string method), while the parsed user code is
      only a replacement value, which `replace` turns into text whatever JSON value it is. */
  function Executable(codec: JsonCodec, language: Language, wrapper: string, userCode: string, cases: seq<TestCase>): (r: Option<string>)
    ensures r.None? <==>
      ParseString(codec, wrapper).None? || codec.parse(userCode).None? || PT.TestCasesReplacement(codec, language, cases).Failure?
  {
    match (ParseString(codec, wrapper), codec.parse(userCode))
    case (Some(template), Some(code)) =>
      (match PT.Populate(codec, language, template, JsString(codec, code), cases)
       case Success(s) => Some(s)
       case Failure(_) => None)
    case _ => None
  }

  /** User code that is a JSON number rather than a JSON string is not refused: its decimal text is
      embedded in the template. */
  lemma NumericUserCodeEmbedded(codec: JsonCodec, language: Language, wrapper: string, userCode: string, cases: seq<TestCase>, n: int)
    requires ParseString(codec, wrapper).Some? && codec.parse(userCode) == Some(JNum(n))
    requires PT.TestCasesReplacement(codec, language, cases).Success?
    ensures Executable(codec, language, wrapper, userCode, cases)
      == Some(PT.Populate(codec, language, ParseString(codec, wrapper).value, Decimal.IntToString(n), cases).value)
  {
  }

  /** How far a submit or run request gets before it answers. */
  datatype Stage =
    | LanguageRejected
    | CodeRejected(error: string)
    | ProblemMissing
    | ProblemUnreadable
    | TemplateMissing(problem: Problem)
    | TemplateBroken(problem: Problem)
    | Ready(language: Language, problem: Problem, executable: string)

  /** The stages that read the problem (everything past the sanitizer). */
  predicate LooksUpProblem(s: Stage) {
    !s.LanguageRejected? && !s.CodeRejected?
  }

  /** The sanitizer's verdict on the request's code, or the stage the request stops at before it. */
  function Screen(patterns: CS.PatternTable, matches: CS.Matcher, code: int, userCode: string): Result<Language, Stage> {
    match MapGrpcLanguageEnum(code)
    case Failure(_) => Failure(LanguageRejected)
    case Success(language) =>
      var verdict := CS.SanitizeSpec(patterns, userCode, language, matches);
      if verdict.isValid then Success(language) else Failure(CodeRejected(verdict.error.GetOr("")))
  }

  /** `submitCodeExec` up to the send: the problem needs test cases, its template a submit wrapper. */
  function SubmitStage(patterns: CS.PatternTable, matches: CS.Matcher, codec: JsonCodec, data: SubmitCodeExecRequest, resolved: Resolved): Stage {
    match Screen(patterns, matches, data.language, data.userCode)
    case Failure(stage) => stage
    case Success(language) => SubmitProblemStage(codec, data, language, resolved)
  }

  /** The submit stages past the sanitizer, for the mapped language. */
  function SubmitProblemStage(codec: JsonCodec, data: SubmitCodeExecRequest, language: Language, resolved: Resolved): (s: Stage)
    ensures LooksUpProblem(s) && !s.ProblemUnreadable?
    ensures s.Ready? ==> s.problem.testcaseCollection.Some?
  {
    if !resolved.Found? || resolved.problem.testcaseCollection.None? then ProblemMissing
    else
      var p := resolved.problem;
      var template := TemplateFor(p.templateCodes, data.language);
      if template.None? || template.value.submitWrapperCode == "" then TemplateMissing(p)
      else
        match Executable(codec, language, template.value.submitWrapperCode, data.userCode, p.testcaseCollection.value.submit)
        case None => TemplateBroken(p)
        case Some(code) => Ready(language, p, code)
  }

  /** `runCodeExec` up to the send: any problem will do, its template needs a run wrapper, the request brings the cases. */
  function RunStage(patterns: CS.PatternTable, matches: CS.Matcher, codec: JsonCodec, data: RunCodeExecRequest, resolved: Resolved): Stage {
    match Screen(patterns, matches, data.language, data.userCode)
    case Failure(stage) => stage
    case Success(language) => RunProblemStage(codec, data, language, resolved)
  }

  /** The run stages past the sanitizer, for the mapped language. */
  function RunProblemStage(codec: JsonCodec, data: RunCodeExecRequest, language: Language, resolved: Resolved): (s: Stage)
    ensures LooksUpProblem(s)
  {
    match resolved
    case Missing => ProblemMissing
    case Malformed => ProblemUnreadable
    case Found(p) =>
      var template := TemplateFor(p.templateCodes, data.language);
      if template.None? || template.value.runWrapperCode == "" then TemplateMissing(p)
      else
        match Executable(codec, language, template.value.runWrapperCode, data.userCode, data.testCases)
        case None => TemplateBroken(p)
        case Some(code) => Ready(language, p, code)
  }

  /** The answer a stage gives; `queued` is what a `Ready` request answers when its job was sent. */
  function Answer(stage: Stage, texts: ErrorTexts, sent: bool, queued: ResponseData): Outcome {
    match stage
    case CodeRejected(error) => Returns(Err(error))
    case ProblemMissing => Returns(Err(texts.problemNotFound))
    case TemplateMissing(_) => Returns(Err(texts.problemNotFound))
    case Ready(_, _, _) => if sent then Returns(Ok(queued)) else Throws
    case _ => Throws
  }

  class ProducerService {
    const kafka: K.KafkaManager
    const cache: CacheStore
    const problems: P.ProblemClient
    /** The sanitizer's pattern table (`DangerousPatterns` in the running service). */
    const patterns: CS.PatternTable
    /** The regex engine the sanitizer's patterns run on. */
    const matches: CS.Matcher
    /** `JSON.parse` / `JSON.stringify` on strings. */
    const codec: JsonCodec
    const texts: ErrorTexts
    /** `REDIS_PREFIX.CODE_MANAGE_PROBLEM_DETAILS`. */
    const problemPrefix: string

    constructor (kafka: K.KafkaManager, cache: CacheStore, problems: P.ProblemClient, patterns: CS.PatternTable, matches: CS.Matcher,
                 codec: JsonCodec, texts: ErrorTexts, problemPrefix: string)
      ensures this.kafka == kafka && this.cache == cache && this.problems == problems
      ensures this.patterns == patterns && this.matches == matches && this.codec == codec && this.texts == texts
      ensures this.problemPrefix == problemPrefix
    {
      this.kafka := kafka;
      this.cache := cache;
      this.problems := problems;
      this.patterns := patterns;
      this.matches := matches;
      this.codec := codec;
      this.texts := texts;
      this.problemPrefix := problemPrefix;
    }

    function ProblemKey(id: string): string {
      Key(problemPrefix, id)
    }

    /**
     * The cache-aside read of a problem: a truthy cached value is used as it is; otherwise
     * `getProblem` is asked and a problem it returns is cached.
     */
    method FetchProblem(id: string) returns (resolved: Resolved)
      modifies cache, problems
      ensures var cached := old(cache.Get(ProblemKey(id)));
        && resolved == Resolve(cached, old(problems.catalogue), id)
        && problems.lookups == old(problems.lookups) + (if Truthy(cached) then [] else [id])
        && cache.entries == EntriesAfterRead(old(cache.entries), ProblemKey(id), cached, resolved)
        && cache.ttls == TtlsAfterRead(old(cache.ttls), ProblemKey(id), cached, resolved)
      ensures problems.catalogue == old(problems.catalogue) && problems.created == old(problems.created)
      ensures problems.updates == old(problems.updates)
    {
      var key := ProblemKey(id);
      var cached := cache.Get(key);
      if Truthy(cached) {
        resolved := if cached.value.ProblemEntry? then Found(cached.value.problem) else Malformed;
      } else {
        var problem := problems.GetProblem(id);
        if problem.Some? {
          var _ := cache.Set(key, ProblemEntry(problem.value), ProblemDetailsExpiry, false);
          resolved := Found(problem.value);
        } else {
          resolved := Missing;
        }
      }
    }

    /** `mapGrpcLanguageEnum` then `sanitize`: the language, or the stage a request stops at. */
    method ScreenRequest(code: int, userCode: string) returns (screened: Result<Language, Stage>)
      ensures screened == Screen(patterns, matches, code, userCode)
    {
      var language := MapGrpcLanguageEnum(code);
      if language.Failure? {
        return Failure(LanguageRejected);
      }
      var verdict := CS.Sanitize(patterns, userCode, language.value, matches);
      if !verdict.isValid {
        return Failure(CodeRejected(verdict.error.GetOr("")));
      }
      return Success(language.value);
    }

    /**
     * `submitCodeExec` from the lookup to the template: the submission is created once the
     * problem has test cases, before the template is checked.
     */
    method PrepareSubmission(data: SubmitCodeExecRequest, submissionId: string, language: Language) returns (stage: Stage)
      modifies cache, problems
      ensures var cached := old(cache.Get(ProblemKey(data.problemId)));
        var resolved := Resolve(cached, old(problems.catalogue), data.problemId);
        && stage == SubmitProblemStage(codec, data, language, resolved)
        && problems.lookups == old(problems.lookups) + (if Truthy(cached) then [] else [data.problemId])
        && cache.entries == EntriesAfterRead(old(cache.entries), ProblemKey(data.problemId), cached, resolved)
        && cache.ttls == TtlsAfterRead(old(cache.ttls), ProblemKey(data.problemId), cached, resolved)
        && problems.created == (if stage.ProblemMissing? then old(problems.created)
             else old(problems.created) + [SubmissionMapper.ToCreateSubmissionDTO(data, SubmissionMapper.Addons(stage.problem.title, stage.problem.difficulty))])
      ensures problems.catalogue == old(problems.catalogue) && problems.updates == old(problems.updates)
    {
      var resolved := FetchProblem(data.problemId);
      if !resolved.Found? || resolved.problem.testcaseCollection.None? {
        return ProblemMissing;
      }
      var p := resolved.problem;
      var _ := problems.CreateSubmission(
        SubmissionMapper.ToCreateSubmissionDTO(data, SubmissionMapper.Addons(p.title, p.difficulty)), submissionId);
      var template := TemplateFor(p.templateCodes, data.language);
      if template.None? || template.value.submitWrapperCode == "" {
        return TemplateMissing(p);
      }
      var executable := Executable(codec, language, template.value.submitWrapperCode, data.userCode, p.testcaseCollection.value.submit);
      if executable.None? {
        return TemplateBroken(p);
      }
      return Ready(language, p, executable.value);
    }

    /**
     * `submitCodeExec`: screen, prepare, send. The job is keyed by the id `createSubmission`
     * assigned (`submissionId`), which is also the answer.
     */
    method SubmitCodeExec(data: SubmitCodeExecRequest, submissionId: string, sendFails: bool) returns (out: Outcome)
      requires kafka.Valid()
      modifies kafka, cache, problems
      ensures kafka.Valid()
      ensures var resolved := Resolve(old(cache.Get(ProblemKey(data.problemId))), old(problems.catalogue), data.problemId);
        var stage := SubmitStage(patterns, matches, codec, data, resolved);
        && out == Answer(stage, texts, old(kafka.producer).Some? && !sendFails, SubmissionCreated(submissionId))
        && (!LooksUpProblem(stage) ==> unchanged(cache) && unchanged(problems))
        && (LooksUpProblem(stage) ==>
              && problems.lookups == old(problems.lookups)
                + (if Truthy(old(cache.Get(ProblemKey(data.problemId)))) then [] else [data.problemId])
              && cache.entries == EntriesAfterRead(old(cache.entries), ProblemKey(data.problemId), old(cache.Get(ProblemKey(data.problemId))), resolved)
              && cache.ttls == TtlsAfterRead(old(cache.ttls), ProblemKey(data.problemId), old(cache.Get(ProblemKey(data.problemId))), resolved))
        && problems.created == (if stage.TemplateMissing? || stage.TemplateBroken? || stage.Ready? then
              old(problems.created) + [SubmissionMapper.ToCreateSubmissionDTO(data, SubmissionMapper.Addons(stage.problem.title, stage.problem.difficulty))]
            else old(problems.created))
        && kafka.outbox == (if stage.Ready? && out.Returns? then
              old(kafka.outbox) + [K.Record(K.SubmissionJobs, Some(submissionId),
                Some(Stringify(SubmissionJob(submissionId, stage.executable, stage.language, data.userId,
                  stage.problem.testcaseCollection.value.submit))), Some(map[]))]
            else old(kafka.outbox))
      ensures problems.catalogue == old(problems.catalogue) && problems.updates == old(problems.updates)
      ensures kafka.producer == old(kafka.producer) && kafka.retryStore == old(kafka.retryStore)
      ensures kafka.consumers == old(kafka.consumers) && kafka.brokerTopics == old(kafka.brokerTopics)
    {
      var screened := ScreenRequest(data.language, data.userCode);
      if screened.Failure? {
        return if screened.error.CodeRejected? then Returns(Err(screened.error.error)) else Throws;
      }
      var stage := PrepareSubmission(data, submissionId, screened.value);
      if !stage.Ready? {
        return if stage.TemplateBroken? then Throws else Returns(Err(texts.problemNotFound));
      }
      var job := SubmissionJob(submissionId, stage.executable, stage.language, data.userId, stage.problem.testcaseCollection.value.submit);
      var sent := kafka.SendMessage(K.SubmissionJobs, Some(submissionId), Some(job), None, sendFails);
      if !sent {
        return Throws;
      }
      return Returns(Ok(SubmissionCreated(submissionId)));
    }

    /** `runCodeExec` from the lookup to the template: the request's own test cases fill the run wrapper. */
    method PrepareRun(data: RunCodeExecRequest, language: Language) returns (stage: Stage)
      modifies cache, problems
      ensures var cached := old(cache.Get(ProblemKey(data.problemId)));
        var resolved := Resolve(cached, old(problems.catalogue), data.problemId);
        && stage == RunProblemStage(codec, data, language, resolved)
        && problems.lookups == old(problems.lookups) + (if Truthy(cached) then [] else [data.problemId])
        && cache.entries == EntriesAfterRead(old(cache.entries), ProblemKey(data.problemId), cached, resolved)
        && cache.ttls == TtlsAfterRead(old(cache.ttls), ProblemKey(data.problemId), cached, resolved)
      ensures problems.catalogue == old(problems.catalogue) && problems.updates == old(problems.updates)
      ensures problems.created == old(problems.created)
    {
      var resolved := FetchProblem(data.problemId);
      if resolved.Missing? {
        return ProblemMissing;
      }
      if resolved.Malformed? {
        // `problem.templateCodes.find` on a value that is not a problem throws
        return ProblemUnreadable;
      }
      var template := TemplateFor(resolved.problem.templateCodes, data.language);
      if template.None? || template.value.runWrapperCode == "" {
        return TemplateMissing(resolved.problem);
      }
      var executable := Executable(codec, language, template.value.runWrapperCode, data.userCode, data.testCases);
      if executable.None? {
        return TemplateBroken(resolved.problem);
      }
      return Ready(language, resolved.problem, executable.value);
    }

    /**
     * `runCodeExec`: screen, prepare, send. The job carries the request's own test cases and the
     * generated temporary id, which is also its key and the answer.
     */
    method RunCodeExec(data: RunCodeExecRequest, tempId: string, sendFails: bool) returns (out: Outcome)
      requires kafka.Valid()
      modifies kafka, cache, problems
      ensures kafka.Valid()
      ensures var resolved := Resolve(old(cache.Get(ProblemKey(data.problemId))), old(problems.catalogue), data.problemId);
        var stage := RunStage(patterns, matches, codec, data, resolved);
        && out == Answer(stage, texts, old(kafka.producer).Some? && !sendFails, JobQueued(tempId))
        && (!LooksUpProblem(stage) ==> unchanged(cache) && unchanged(problems))
        && (LooksUpProblem(stage) ==>
              && problems.lookups == old(problems.lookups)
                + (if Truthy(old(cache.Get(ProblemKey(data.problemId)))) then [] else [data.problemId])
              && cache.entries == EntriesAfterRead(old(cache.entries), ProblemKey(data.problemId), old(cache.Get(ProblemKey(data.problemId))), resolved)
              && cache.ttls == TtlsAfterRead(old(cache.ttls), ProblemKey(data.problemId), old(cache.Get(ProblemKey(data.problemId))), resolved))
        && kafka.outbox == (if stage.Ready? && out.Returns? then
              old(kafka.outbox) + [K.Record(K.RunJobs, Some(tempId),
                Some(Stringify(RunJob(data, tempId, stage.executable, stage.language))), Some(map[]))]
            else old(kafka.outbox))
      ensures problems.catalogue == old(problems.catalogue) && problems.updates == old(problems.updates)
      ensures problems.created == old(problems.created)
      ensures kafka.producer == old(kafka.producer) && kafka.retryStore == old(kafka.retryStore)
      ensures kafka.consumers == old(kafka.consumers) && kafka.brokerTopics == old(kafka.brokerTopics)
    {
      var screened := ScreenRequest(data.language, data.userCode);
      if screened.Failure? {
        return if screened.error.CodeRejected? then Returns(Err(screened.error.error)) else Throws;
      }
      var stage := PrepareRun(data, screened.value);
      if !stage.Ready? {
        return if stage.ProblemMissing? || stage.TemplateMissing? then Returns(Err(texts.problemNotFound)) else Throws;
      }
      var sent := kafka.SendMessage(K.RunJobs, Some(tempId), Some(RunJob(data, tempId, stage.executable, stage.language)), None, sendFails);
      if !sent {
        return Throws;
      }
      return Returns(Ok(JobQueued(tempId)));
    }

    /**
     * `customCodeExec`: no problem is involved; the job is the language, a generated temporary id
     * and the code as given.
     */
    method CustomCodeExec(data: CustomCodeExecRequest, tempId: string, sendFails: bool) returns (out: Outcome)
      requires kafka.Valid()
      modifies kafka
      ensures kafka.Valid()
      ensures match Screen(patterns, matches, data.language, data.userCode)
        case Failure(stage) =>
          && out == (if stage.CodeRejected? then Returns(Err(stage.error)) else Throws)
          && kafka.outbox == old(kafka.outbox)
        case Success(language) =>
          var sent := old(kafka.producer).Some? && !sendFails;
          && out == (if sent then Returns(Ok(JobQueued(tempId))) else Throws)
          && kafka.outbox == (if sent then
                old(kafka.outbox) + [K.Record(K.CustomJobs, Some(tempId), Some(Stringify(CustomJob(language, tempId, data.userCode))), Some(map[]))]
              else old(kafka.outbox))
      ensures kafka.producer == old(kafka.producer) && kafka.retryStore == old(kafka.retryStore)
      ensures kafka.consumers == old(kafka.consumers) && kafka.brokerTopics == old(kafka.brokerTopics)
    {
      var screened := ScreenRequest(data.language, data.userCode);
      if screened.Failure? {
        return if screened.error.CodeRejected? then Returns(Err(screened.error.error)) else Throws;
      }
      var sent := kafka.SendMessage(K.CustomJobs, Some(tempId), Some(CustomJob(screened.value, tempId, data.userCode)), None, sendFails);
      if !sent {
        return Throws;
      }
      return Returns(Ok(JobQueued(tempId)));
    }
  }

  /**
   * The producer's refusals reach the gateway as the status the error mapping gives them: a
   * sanitizer refusal is an invalid argument, a missing problem or template is not found.
   */
  lemma RefusalsMapToStatus(patterns: CS.PatternTable, matches: CS.Matcher, codec: JsonCodec, data: SubmitCodeExecRequest,
                            resolved: Resolved, texts: ErrorTexts, sent: bool, queued: ResponseData)
    requires WellFormed(texts)
    ensures var stage := SubmitStage(patterns, matches, codec, data, resolved);
      var out := Answer(stage, texts, sent, queued);
      && (stage.CodeRejected? ==> out.Returns? && MapMessageToGrpcStatus(texts, out.response.errorMessage) == InvalidArgument)
      && (stage.ProblemMissing? || stage.TemplateMissing? ==>
            out.Returns? && MapMessageToGrpcStatus(texts, out.response.errorMessage) == NotFound)
  {
    var stage := SubmitStage(patterns, matches, codec, data, resolved);
    if stage.CodeRejected? {
      var language := MapGrpcLanguageEnum(data.language).value;
      CS.ErrorsAreSyntaxErrors(patterns, data.userCode, language, matches, texts);
    }
  }

  /** Submit refuses a problem without test cases, where run goes on to its template. */
  lemma SubmitNeedsTestCasesRunDoesNot(patterns: CS.PatternTable, matches: CS.Matcher, codec: JsonCodec,
                                       submit: SubmitCodeExecRequest, run: RunCodeExecRequest, p: Problem)
    requires p.testcaseCollection.None?
    requires Screen(patterns, matches, submit.language, submit.userCode).Success?
    requires Screen(patterns, matches, run.language, run.userCode).Success?
    ensures SubmitStage(patterns, matches, codec, submit, Found(p)) == ProblemMissing
    ensures RunStage(patterns, matches, codec, run, Found(p)) != ProblemMissing
  {
  }

  /**
   * Once a fetched problem is cached, later reads resolve to it whatever the problem service
   * would answer then: the cached copy shadows the catalogue until it expires.
   */
  lemma CachedProblemShadowsCatalogue(entries: map<string, CacheValue>, key: string, id: string,
                                      catalogue: map<string, Problem>, later: map<string, Problem>)
    requires var cached := if key in entries then Some(entries[key]) else None;
      Resolve(cached, catalogue, id).Found?
    ensures var cached := if key in entries then Some(entries[key]) else None;
      var resolved := Resolve(cached, catalogue, id);
      var after := EntriesAfterRead(entries, key, cached, resolved);
      Resolve(Some(after[key]), later, id) == resolved
  {
  }
}
