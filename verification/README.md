# Code-manage service: retry engine, handlers and request logic

A Dafny model of the core of the code-manage service of the Codex platform. The service accepts code-execution requests over gRPC, validates them and publishes jobs to Kafka. Kafka and NATS carry the execution results back. The service caches those results in Redis, forwards them to the problem service and the WebSocket gateway, and hands each one out once through a pull API.

The model covers:

- **Kafka manager** (`KafkaManager`): producer and admin initialisation, topic creation, `sendMessage`/`sendBatch`, and the consumer registry. It also covers the per-message wrapper that turns a parse failure or a handler exception into `scheduleRetry`, the retry decision (dead letter, drop or enqueue with exponential backoff), and the retry worker's tick over the sorted set. The producer's outbox is an append-only sequence of records. The sorted set is a map from envelope to score.
- **Kafka result handlers** (`ConsumerService`): registration of the three consumer groups and the check–write–mark handlers. Their awaited calls can fail at any point (`Faults`).
- **Result pulls** (`ExecutionResultService`): read, ownership check, delete, project.
- **Request logic** (`ProducerService`): language mapping, sanitising, the cache-aside problem lookup, submission creation, template population and job dispatch.
- **NATS result listeners** (`NatsListeners`): idempotency check, cache write, update, publish, ack and nak, on the decoded data as received.
- **Pure helpers**: the sanitiser (`CodeSanitize`), template population (`PopulateTemplate`), the message-to-status mapping (`GrpcStatus`), the enum mappers (`Enums`, `SubmissionMapper`) and the result projections (`ExecutionResultMapper`).

How values are modelled:

- **JSON values and wire texts.** A JSON value is a `Json` tree. A text on the wire is either the serialization of a tree (`Serialized`) or other characters (`Chars`), so `JSON.parse(JSON.stringify(v)) == v` holds, and a value encoded twice stays visibly different.
- **Payloads.** The Kafka handlers keep a payload as the document received and read it the way JavaScript does (`JsValues`): a missing property is `undefined`, `${v.id}` is the property's text, `===` compares strings only. The typed result records of `Payloads` are what the workers publish; their encodings are the documents of the field and end-to-end lemmas.
- **Numbers.** A JSON number is an integer (`JNum`).
- **String-level JSON.** `JSON.parse` of user code, wrapper templates and test cases, and `JSON.stringify` of rendered test cases, go through a `JsonCodec` value supplied by the caller.
- **Regex matching.** The sanitiser's regex engine is a `Matcher` parameter.
- **Time, jitter and ids.** Time (`now`), the jitter (`0 <= jitter < 1000`), the new submission id and the random temporary id are parameters.
- **Failures of awaited calls.** Each awaited call to Redis, the problem service or Kafka is numbered in source order. A `Fault` parameter says which one throws.

## Model

| member | source | states |
|---|---|---|
| Json.ParseStringify | src/libs/kafka/kafkaManager.ts:83 | documents the symbolic wire encoding: a serialized value is held as `Serialized`, so parsing it gives the value back by definition, not as a proved property of a character-level parser |
| Json.StringifyTwice | src/libs/kafka/kafkaManager.ts:166 | documents the symbolic wire encoding: a value serialized, wrapped as a string and serialized again parses to the string, not to the value; it holds by the `Serialized`/`Chars` representation |
| Decimal.NatToString | src/libs/kafka/kafkaManager.ts:149 | `String(n)` of a natural is a non-empty digit string with no leading zero unless it is 0 |
| Decimal.ParseNatToString | src/libs/kafka/kafkaManager.ts:134 | `parseInt` of `String(n)` is `n`: the count header round-trips |
| Decimal.NatToStringInjective | src/libs/kafka/kafkaManager.ts:149 | distinct counts are written as distinct header strings |
| Enums.MapGrpcLanguageEnum | src/enums/Mapper.ts:9-17 | succeeds exactly on 1, 2, 3, and fails with "Invalid language" on every other code |
| Enums.MapGrpcLanguageEnumValues | src/enums/Mapper.ts:10-16 | 1, 2, 3 give JavaScript, Python, Go; 0 fails |
| Enums.MapGrpcLanguageEnumBijective | src/enums/Mapper.ts:10-15 | distinct accepted codes give distinct languages, and every language is reached from some code in {1, 2, 3} |
| Enums.LanguageNameInjective | src/enums/Mapper.ts:11-15 | the language names put in job payloads identify the language |
| SubmissionMapper.ToCreateSubmissionDTO | src/dtos/mappers/SubmissionMapper.ts:13-27 | problem id, code, user id and language copied unchanged, title and difficulty taken from the add-ons, country present exactly when non-empty |
| SubmissionMapper.MapGrpcDifficultyEnum | src/dtos/mappers/SubmissionMapper.ts:29-39 | 1, 2, 3 map to easy, medium, hard; everything else fails with "Invalid difficulty value" |
| SubmissionMapper.MapGrpcLanguageEnum | src/dtos/mappers/SubmissionMapper.ts:41-49 | accepts exactly 1 and 2, agreeing with the main mapper there; fails with "Invalid choosen language" otherwise |
| SubmissionMapper.LanguageMappersDisagreeOnGo | src/dtos/mappers/SubmissionMapper.ts:41-49 | the two language mappers accept the same codes except 3 (Go) |
| SubmissionMapper.MapGrpcDifficultyEnumInjective | src/dtos/mappers/SubmissionMapper.ts:30-35 | distinct accepted difficulty codes give distinct difficulties |
| ExecutionResultMapper.Truthful | src/dtos/mappers/ExecutionResult.ts:27 | `stdOut ? stdOut : undefined`: the output is kept exactly when it is present and truthy, and then unchanged |
| ExecutionResultMapper.ToSubmitCodeResultOutDTO | src/dtos/mappers/ExecutionResult.ts:8-17 | each of execution result, time, memory and status is the document's property of that name, absent where the document has none |
| ExecutionResultMapper.ToRunCodeResultOutDTO | src/dtos/mappers/ExecutionResult.ts:19-29 | the same four properties, plus `stdOut` kept exactly when present and truthy |
| ExecutionResultMapper.ToCustomCodeResultOutDTO | src/dtos/mappers/ExecutionResult.ts:31-39 | time, memory and `stdOut` properties copied, nothing else |
| ExecutionResultMapper.RunAndSubmitProjectionsAgree | src/dtos/mappers/ExecutionResult.ts:8-29 | documents that agree on the four shared properties get run and submit projections that agree on them |
| ExecutionResultMapper.ProjectionsIgnoreOtherFields | src/dtos/mappers/ExecutionResult.ts:8-17 | the submit projection depends on the four properties only |
| ExecutionResultMapper.SubmitProjectionOfEncoded | src/dtos/mappers/ExecutionResult.ts:8-17 | a submission result as the workers send it projects onto its own execution result, time, memory and status |
| ExecutionResultMapper.RunProjectionOfEncoded | src/dtos/mappers/ExecutionResult.ts:19-29 | an encoded run result projects onto its own fields, its output kept exactly when it is a non-empty text |
| ExecutionResultMapper.CustomProjectionOfEncoded | src/dtos/mappers/ExecutionResult.ts:31-39 | an encoded custom result projects onto its time, memory and output |
| GrpcStatus.MapMessageToGrpcStatus | src/utils/mapMessageToGrpcCode.ts:13-31 | total; not found exactly on the five not-found messages; invalid argument exactly on other messages starting "Syntax Error:"; resource exhausted exactly on the rate-limit message otherwise |
| GrpcStatus.SyntaxErrorIsInvalidArgument | src/utils/mapMessageToGrpcCode.ts:23-24 | any message with the sanitizer prefix maps to invalid argument |
| GrpcStatus.UnauthorizedIsUnknown | src/utils/mapMessageToGrpcCode.ts:29-30 | the unauthorized-access message falls through to unknown |
| GrpcStatus.ResultNotFoundIsNotFound | src/utils/mapMessageToGrpcCode.ts:18-21 | the three result-not-found messages map to not found |
| GrpcStatus.TooManyRequestsIsResourceExhausted | src/utils/mapMessageToGrpcCode.ts:26-27 | the rate-limit message maps to resource exhausted |
| CodeSanitize.FirstMatchFrom | src/utils/codeSanitize.ts:193-201 | the first matching pattern index from a start, or none exactly when no later pattern matches |
| CodeSanitize.Violation | src/utils/codeSanitize.ts:193-201 | the first pattern in list order that matches, or none exactly when none matches |
| CodeSanitize.FindViolatingPattern | src/utils/codeSanitize.ts:193-202 | the loop with early return computes `Violation` |
| CodeSanitize.FirstViolationFrom | src/utils/codeSanitize.ts:154-162 | the first category in table order with a violation, and its pattern; none exactly when no category has one |
| CodeSanitize.Utf16Length | src/utils/codeSanitize.ts:146 | `userCode.length`: UTF-16 code units, two for a character outside the Basic Multilingual Plane; bounds in `Utf16LengthBounds` |
| CodeSanitize.Utf16LengthBounds | src/utils/codeSanitize.ts:146 | the length lies between the character count and twice it; it equals the count exactly when no character is outside the Basic Multilingual Plane |
| CodeSanitize.SanitizeSpec | src/utils/codeSanitize.ts:145-184 | what `sanitize` returns, in its order of checks; characterised by `SanitizeValidIff`, `LengthCheckComesFirst`, `CommonBeforeLanguage` and `UnsupportedOnlyAfterCommon` |
| CodeSanitize.Sanitize | src/utils/codeSanitize.ts:145-184 | the two loops over categories, each returning at the first violation, compute `SanitizeSpec`: length check in UTF-16 code units, common categories, the language's entry, its categories |
| CodeSanitize.SanitizeValidIff | src/utils/codeSanitize.ts:145-183 | valid if and only if the code is at most 10000 UTF-16 code units, no common pattern matches, the language has an entry and none of its patterns matches |
| CodeSanitize.LengthCheckComesFirst | src/utils/codeSanitize.ts:146-151 | code over 10000 UTF-16 code units gets the length error whatever the matcher says; exactly 10000 never does |
| CodeSanitize.AstralCodeOverLimit | src/utils/codeSanitize.ts:146-151 | 5001 emoji, 5001 characters but 10002 code units, get the length error |
| CodeSanitize.ErrorStartsDifferently | src/utils/codeSanitize.ts:146-151 | within the limit the length error is never returned |
| CodeSanitize.CommonBeforeLanguage | src/utils/codeSanitize.ts:154-171 | once a common pattern matches, the verdict is invalid and the same for every language |
| CodeSanitize.UnsupportedOnlyAfterCommon | src/utils/codeSanitize.ts:165-171 | a language without an entry is reported unsupported exactly when no common pattern matched |
| CodeSanitize.ErrorsAreSyntaxErrors | src/utils/codeSanitize.ts:149-178 | every error starts with "Syntax Error:" and maps to invalid argument |
| CodeSanitize.CoveredLanguageIsSupported | src/utils/codeSanitize.ts:165-171 | a language with an entry is never reported unsupported |
| CodeSanitize.DangerousPatternsCoverEveryLanguage | src/utils/codeSanitize.ts:33-136 | the constant table has an entry for JavaScript, Python and Go |
| PopulateTemplate.IndexOfFrom | src/utils/populateTemplate.ts:39-41 | the first occurrence of a placeholder from a position, or none exactly when there is no later occurrence |
| PopulateTemplate.ReplaceFirst | src/utils/populateTemplate.ts:39-41 | `replace` with a string pattern and the replacement inserted verbatim (the corrected behaviour, see Findings); characterised by `ReplaceFirstOnlyFirst` |
| PopulateTemplate.ReplaceFirstOnlyFirst | src/utils/populateTemplate.ts:39-41 | `replace` with a string pattern changes only the first occurrence and keeps everything around it, later occurrences included |
| PopulateTemplate.Substitution | src/utils/populateTemplate.ts:40-41 | the `$`-expansion `replace` applies to a replacement string: `$$`, `$&`, `` $` `` and `$'`; characterised by `SubstitutionWithoutDollar` and `DollarQuoteSplicesTemplate` |
| PopulateTemplate.SubstitutionWithoutDollar | src/utils/populateTemplate.ts:40-41 | a replacement without `$` is inserted verbatim |
| PopulateTemplate.ReplaceFirstAsWritten | src/utils/populateTemplate.ts:39-41 | `replace` as JavaScript evaluates it; it agrees with the verbatim insertion whenever the replacement has no `$` |
| PopulateTemplate.DollarQuoteSplicesTemplate | src/utils/populateTemplate.ts:40 | as written, user code `'$'` in `A{{__USER_CODE__}}B` gives `A'BB`, where verbatim insertion gives `A'$'B` |
| PopulateTemplate.CaseObjects | src/utils/populateTemplate.ts:16-21 | one `{input, output}` object per case, in order, from the parsed fields; fails exactly when some field does not parse |
| PopulateTemplate.GoBlock | src/utils/populateTemplate.ts:27-33 | one case as a Go struct literal of its parsed integer arrays, or none when a text is not one; the partner is `GoCasesJoined` |
| PopulateTemplate.GoCases | src/utils/populateTemplate.ts:26-34 | one Go block per case, in order; fails exactly when some case does not render |
| PopulateTemplate.TestCasesReplacement | src/utils/populateTemplate.ts:12-36 | for JavaScript and Python it fails exactly when some case field does not parse; for Go exactly when some case does not render |
| PopulateTemplate.Populate | src/utils/populateTemplate.ts:6-42 | fails exactly when the test-case replacement fails; its placeholders are handled by `NoPlaceholderUnchanged` and `PlaceholderInUserCodeIsReplaced` |
| PopulateTemplate.GoEmptyCases | src/utils/populateTemplate.ts:26-35 | no test cases give the empty replacement for Go |
| PopulateTemplate.GoCasesJoined | src/utils/populateTemplate.ts:26-35 | appending a case appends a newline and its `Input: []int{…}` / `Output: []int{…}` block |
| PopulateTemplate.JsonCasesIgnoreIds | src/utils/populateTemplate.ts:16-21 | for JavaScript and Python the replacement depends only on inputs and outputs, not on ids |
| PopulateTemplate.NoPlaceholderUnchanged | src/utils/populateTemplate.ts:39-41 | a template with neither placeholder comes back unchanged |
| PopulateTemplate.PlaceholderInUserCodeIsReplaced | src/utils/populateTemplate.ts:39-41 | a test-case placeholder brought in by the user code is the one replaced |
| JsValues.LookupAt | src/libs/kafka/kafkaManager.ts:116 | a property read gives the value of the last field with that name, as `JSON.parse` keeps the last of repeated names |
| JsValues.LookupAbsent | src/services/consumer.service.ts:48 | a name no field carries reads as `undefined` |
| JsValues.PropText | src/services/consumer.service.ts:48 | `${data.id}`: a missing property gives the text `undefined`; the text is strictly equal to the property exactly when the property is a string |
| Payloads.RunJobFields | src/services/producer.service.ts:167-172 | the run job carries the temporary id, the language name, the request's code and the request's own test cases |
| Payloads.SubmissionJob | src/services/producer.service.ts:106-112 | the submission job: submission id, executable code, language name, user id and the problem's submit test cases |
| Payloads.RunJob | src/services/producer.service.ts:167-172 | the run job: the request spread with its `language` overwritten by the name, then temporary id and executable code; its fields are `RunJobFields` |
| Payloads.CustomJob | src/services/producer.service.ts:195-199 | the custom job: exactly language name, temporary id and user code |
| Cache.Key | src/services/consumer.service.ts:48 | a key is the prefix, a colon and the id, in that order |
| Cache.CacheStore.Get | src/services/executionResult.service.ts:37 | `get` returns the stored value exactly when the key is present |
| Cache.CacheStore.Set | src/services/consumer.service.ts:55-59 | a successful `set` stores the value and its expiry under the key; a failed one changes nothing |
| Cache.CacheStore.Del | src/services/executionResult.service.ts:55 | `del` removes exactly the key |
| Cache.KeyInjective | src/services/consumer.service.ts:48 | under one prefix, equal keys mean equal ids |
| Cache.NamespacesDisjoint | src/config/redis/keyPrefix.ts:2-11 | the marker and the three result namespaces never share a key |
| Cache.NestedKeyDiffers | src/services/submitCodeExecListener.service.ts:71 | a key nested under a user id never equals the plain key for the same id |
| KafkaManager.SentValueDecodes | src/libs/kafka/kafkaManager.ts:83 | a value sent with `sendMessage` is what the consumer wrapper parses out of it |
| KafkaManager.DecodePayload | src/libs/kafka/kafkaManager.ts:116 | a message without a value gives `null`; with one, parsing fails exactly when the text is not JSON, and otherwise gives the parsed value |
| KafkaManager.KafkaManager.constructor | src/libs/kafka/kafkaManager.ts:25-34 | no producer, no admin, no consumers, an empty retry store and the worker off; the broker's topics are those it already holds |
| KafkaManager.KafkaManager.Init | src/libs/kafka/kafkaManager.ts:55-66 | creates the idempotent producer and the admin only when missing; nothing else changes |
| KafkaManager.KafkaManager.CreateTopic | src/libs/kafka/kafkaManager.ts:69-76 | fails without an admin; creates the topic with the given partitions and replication only when not already listed |
| KafkaManager.KafkaManager.Produce | src/libs/kafka/kafkaManager.ts:81-84 | `producer.send` appends the records when there is a producer and the broker accepts them |
| KafkaManager.KafkaManager.SendMessage | src/libs/kafka/kafkaManager.ts:79-86 | throws without a producer; otherwise appends one record with the serialized value and the headers or `{}` |
| KafkaManager.KafkaManager.SendBatch | src/libs/kafka/kafkaManager.ts:89-97 | throws without a producer; otherwise appends one headerless record per item, in order |
| KafkaManager.BatchRecords | src/libs/kafka/kafkaManager.ts:91-94 | one record per item, in order, with its key and serialized value and no headers |
| KafkaManager.KafkaManager.CreateConsumer | src/libs/kafka/kafkaManager.ts:100-129 | a registered group gets its existing consumer back and nothing changes; otherwise the group is registered once |
| KafkaManager.KafkaManager.Deliver | src/libs/kafka/kafkaManager.ts:114-123 | a payload that parses and a handler that returns change nothing; a parse failure or a throw makes exactly one `scheduleRetry` on the consumer's topic and dead-letter topic |
| KafkaManager.KafkaManager.ScheduleRetry | src/libs/kafka/kafkaManager.ts:132-153 | outbox, store and outcome are those of carrying out `RetryActionFor` |
| KafkaManager.RetryActionFor | src/libs/kafka/kafkaManager.ts:132-153 | the retry decision; its cases are `RetryActionCases` |
| KafkaManager.RetryEnvelope | src/libs/kafka/kafkaManager.ts:145-150 | the `retryData` stored in the sorted set; what it keeps is `EnvelopeKeepsMessage` and `EnvelopeCount` |
| KafkaManager.DeadLetterRecord | src/libs/kafka/kafkaManager.ts:138 | the record sent to the dead-letter topic; what it carries is `DeadLetterCarriesText` |
| KafkaManager.RetryActionCases | src/libs/kafka/kafkaManager.ts:134-152 | count below 3 enqueues the envelope, due 5 to 20 seconds plus jitter from now; otherwise dead letter (no headers) when a topic is given, else drop |
| KafkaManager.AfterRetryChangesOneThing | src/libs/kafka/kafkaManager.ts:136-152 | a decision adds one record, sets one store entry, or changes nothing |
| KafkaManager.EnvelopeIsScheduled | src/libs/kafka/kafkaManager.ts:144-152 | a stored envelope's count header is a numeral from 1 to 3, one more than the message's |
| KafkaManager.EnvelopeCount | src/libs/kafka/kafkaManager.ts:134-149 | the envelope's count header reads back as the message's count plus one |
| KafkaManager.EnvelopeKeepsMessage | src/libs/kafka/kafkaManager.ts:145-150 | the envelope keeps topic, key (empty becomes null), text (or `''`) and every other header |
| KafkaManager.Pow2Monotone | src/libs/kafka/kafkaManager.ts:189 | the power of two never falls as the count grows |
| KafkaManager.BaseDelay | src/libs/kafka/kafkaManager.ts:189 | `min(600, 2^count * 5)`: between 5 and 600 seconds, never above `2^count * 5`, and equal to one of the two |
| KafkaManager.RetryDelay | src/libs/kafka/kafkaManager.ts:188-192 | the base delay plus the jitter, in seconds; its range is stated by `RetryActionCases` |
| KafkaManager.BaseDelayMonotoneAndCapped | src/libs/kafka/kafkaManager.ts:188-192 | the base delay is at least 5, non-decreasing in the count and at most 600 |
| KafkaManager.BaseDelayReachable | src/libs/kafka/kafkaManager.ts:189 | counts 0, 1, 2 give 5, 10, 20 seconds |
| KafkaManager.Retried | src/libs/kafka/kafkaManager.ts:132-169 | one park-and-republish round with the corrected redelivery (see Findings) keeps the consumed text and raises the count header by one |
| KafkaManager.RetriedAsWritten | src/libs/kafka/kafkaManager.ts:132-169 | one round as written: the same key and headers, the count raised by one, and the payload the consumer then parses is the consumed text as a JSON string |
| KafkaManager.Attempt | src/libs/kafka/kafkaManager.ts:132-169 | after k corrected retries (see Findings) the count header reads the original count plus k and the consumed text is unchanged |
| KafkaManager.ThreeRetriesThenDeadLetter | src/libs/kafka/kafkaManager.ts:33-152 | a fresh message is enqueued on its first three failures; the fourth goes to the dead-letter topic or is dropped |
| KafkaManager.AttemptKeepsPayload | src/libs/kafka/kafkaManager.ts:148 | the consumed text, and so the decoded payload, survives any number of corrected retries |
| KafkaManager.KafkaManager.StartRetryWorker | src/libs/kafka/kafkaManager.ts:156-160 | the interval is registered at most once |
| KafkaManager.KafkaManager.Unpark | src/libs/kafka/kafkaManager.ts:167 | `zrem` takes exactly that envelope out of the retry store and touches nothing else |
| KafkaManager.KafkaManager.Republish | src/libs/kafka/kafkaManager.ts:164-168 | the envelopes are sent one at a time, in order, as corrected redeliveries (see Findings), each removed only after its send; the first send that throws stops the loop |
| KafkaManager.KafkaManager.RetryTick | src/libs/kafka/kafkaManager.ts:160-169 | republishes the due envelopes in ascending score order as corrected redeliveries (see Findings) and removes each after its send; a failing send stops the tick and leaves that envelope and every later one stored with its score |
| KafkaManager.TickStep | src/libs/kafka/kafkaManager.ts:164-168 | one more sent envelope adds one redelivery and removes one member |
| KafkaManager.Redelivery | src/libs/kafka/kafkaManager.ts:164-166 | the corrected republish of an envelope: the parked text as consumed; the partner is `RedeliveryPreservesPayload` |
| KafkaManager.RedeliveryAsWritten | src/libs/kafka/kafkaManager.ts:164-166 | the republish as written: the parked text serialized a second time; the partner is `RedeliveryAsWrittenDoubleEncodes` |
| KafkaManager.RedeliveryAsWrittenDoubleEncodes | src/libs/kafka/kafkaManager.ts:164-166 | as written, a retried object payload reaches the handler as a JSON string |
| KafkaManager.RedeliveryPreservesPayload | src/libs/kafka/kafkaManager.ts:164-166 | the corrected redelivery decodes to the payload of the original message |
| KafkaManager.DeadLetterCarriesText | src/libs/kafka/kafkaManager.ts:138 | the dead-letter record carries the consumed text as a JSON string under the message's key |
| ProblemClient.ProblemClient.GetProblem | src/services/producer.service.ts:73 | `getProblem` answers the catalogue's problem or null, and is recorded |
| ProblemClient.ProblemClient.CreateSubmission | src/services/producer.service.ts:86-91 | records the request and returns the new submission's id |
| ProblemClient.ProblemClient.UpdateSubmission | src/services/consumer.service.ts:61-64 | records the update unless the call fails |
| ConsumerService.ConsumerService.SubmitCodeExec | src/services/consumer.service.ts:43-46 | registers group `CM_SUB_NORMAL_EXEC` on the submission results topic with the default dead-letter topic, once |
| ConsumerService.ResultTopic | src/index.ts:24-50 | each group's result topic: never a job topic and never the dead-letter topic |
| ConsumerService.ConsumerService.RunCodeExec | src/services/consumer.service.ts:80-83 | registers group `CM_RUN_NORMAL_EXEC`, once, on the run results topic (corrected; as written it is the run jobs topic, see Findings) |
| ConsumerService.ConsumerService.CustomCodeExec | src/services/consumer.service.ts:113-116 | registers group `CM_CUSTOM_NORMAL_EXEC`, once, on the custom results topic (corrected; as written it is the custom jobs topic, see Findings) |
| ConsumerService.ConsumerService.HandleSubmissionResult | src/services/consumer.service.ts:47-76 | a `null` payload throws before any call; the marker key is `processed:` and the template text of `submissionId` (`undefined` when missing); a marked id returns with no write or RPC; otherwise the document as received, the update with `Id` set to its `problemId`, then the marker, the marker only after everything else succeeded; a throw keeps earlier writes |
| ConsumerService.ConsumerService.HandleRunResult | src/services/consumer.service.ts:84-109 | the same check on `userId`, then the document as received under `run:normal:` and that text, then the marker; it returns normally exactly when `RunHandled` holds |
| ConsumerService.ConsumerService.HandleCustomResult | src/services/consumer.service.ts:117-142 | the same check on `tempId`, then the document as received under `custom:normal:` and that text, then the marker |
| ConsumerService.ConsumerService.OnRunMessage | src/libs/kafka/kafkaManager.ts:114-122 | a message for the run group: parse, handler, and on a parse failure or a throw exactly the retry decision on the group's topic; a handled message leaves producer and retry store alone; an unparsable one leaves the cache alone |
| ConsumerService.MarkersShareNamespace | src/services/consumer.service.ts:48-118 | all three handlers use the `processed` prefix, so ids of different kinds share markers exactly when they are equal |
| ConsumerService.MissingIdsShareMarker | src/services/consumer.service.ts:48-51 | documents without the id property all use the marker `processed:undefined`, so after the first every one is dropped |
| ConsumerService.OwnRunJobServedAsResult | src/services/consumer.service.ts:83 | as written the run group reads the run jobs topic; the job it caches is answered to its user as a successful result with no fields |
| ConsumerService.RunJobHasNoResultFields | src/services/producer.service.ts:167-172 | a run job has none of the properties the run pull projects onto |
| ConsumerService.OwnCustomJobServedAsResult | src/services/consumer.service.ts:116 | as written the custom group reads the custom jobs topic; the job it caches is answered as a result with no time, memory or output |
| ConsumerService.RunResultTopicServesResult | src/services/consumer.service.ts:80-109 | on the run results topic, a run result the workers publish reaches its user with every field it carries |
| ConsumerService.CustomResultTopicServesResult | src/services/consumer.service.ts:113-142 | on the custom results topic, a custom result reaches its requester with its time, memory and output |
| ConsumerService.SubmissionResultServed | src/services/consumer.service.ts:47-76 | a submission result the workers publish reaches its user with its four projected fields |
| ConsumerService.RetryAsWrittenLosesId | src/libs/kafka/kafkaManager.ts:164-166 | as written, a retried message reaches the handler as a JSON string, so every id property reads `undefined` |
| ExecutionResultService.ExecutionResultService.SubmitCodeResult | src/services/executionResult.service.ts:30-63 | one get at `submission:normal:<submissionId>`; a falsy value is not found, a value whose `userId` is not strictly the caller's id is unauthorized, otherwise delete that key and return the projection |
| ExecutionResultService.ExecutionResultService.RunCodeResult | src/services/executionResult.service.ts:65-95 | the same at `run:normal:<userId>` |
| ExecutionResultService.ExecutionResultService.CustomCodeResult | src/services/executionResult.service.ts:97-127 | the same at `custom:normal:<tempId>`, checking the temporary id |
| ExecutionResultService.SubmitPull | src/services/executionResult.service.ts:30-63 | answers with the result exactly when a truthy value is cached under the submission key and its `userId` property is the caller's id as a string |
| ExecutionResultService.RunPull | src/services/executionResult.service.ts:65-95 | the same under the user's run key |
| ExecutionResultService.CustomPull | src/services/executionResult.service.ts:97-127 | the same under the custom key, with the `tempId` property |
| ExecutionResultService.PullsTouchOnlyTheirKey | src/services/executionResult.service.ts:35-55 | a pull deletes only its own key, and only when it answers with the result |
| ExecutionResultService.OtherOwnerRefused | src/services/executionResult.service.ts:47-53 | a result whose `userId` is another user's is refused as unauthorized and left in place |
| ExecutionResultService.NonDocumentRefused | src/services/executionResult.service.ts:79-85 | a marker or a problem under a result key is refused as unauthorized and left in place |
| ExecutionResultService.OwnerlessDocumentRefused | src/services/executionResult.service.ts:79-85 | a document without a `userId` property is never handed out |
| ExecutionResultService.SecondPullNotFound | src/services/executionResult.service.ts:55-62 | right after a successful pull, the same pull answers not found |
| ExecutionResultService.SubmitWriteThenPull | src/services/executionResult.service.ts:35-62 | what the submission handler writes (document, marker) is handed to the user the document names, and only the document is removed |
| ExecutionResultService.RunWriteThenPull | src/services/executionResult.service.ts:65-95 | the same for the run handler's entry |
| ExecutionResultService.CustomWriteThenPull | src/services/executionResult.service.ts:97-127 | the same for the custom handler's entry |
| ExecutionResultService.ListenerEntryNotPulled | src/services/submitCodeExecListener.service.ts:71 | the NATS listener's entry is invisible to the submission pull |
| ExecutionResultService.CustomMissingReportsRunMessage | src/services/executionResult.service.ts:103-109 | a missing custom result is reported with the run-result message |
| ProducerService.Resolve | src/services/producer.service.ts:67-77 | a truthy cached value is used as the problem; otherwise the problem service answers |
| ProducerService.TemplateFor | src/services/producer.service.ts:92 | `templateCodes.find` on the language code; characterised by `TemplateForIsFirstMatch` |
| ProducerService.TemplateForIsFirstMatch | src/services/producer.service.ts:92 | `find`: the first template with the request's language code, or none exactly when no template has it |
| ProducerService.Executable | src/services/producer.service.ts:100-105 | fails exactly when the wrapper does not parse to a string, the user code does not parse, or the test cases do not render; any parsed user code is turned into text |
| ProducerService.NumericUserCodeEmbedded | src/services/producer.service.ts:164 | user code that parses to a number is not refused: its decimal text is embedded |
| ProducerService.Screen | src/services/producer.service.ts:58-66 | the mapped language, or the stop before the lookup; `ScreenRequest` computes it |
| ProducerService.SubmitStage | src/services/producer.service.ts:57-105 | how far a submit request gets; properties in `SubmitProblemStage` and `RefusalsMapToStatus` |
| ProducerService.RunStage | src/services/producer.service.ts:124-166 | how far a run request gets; properties in `RunProblemStage` and `SubmitNeedsTestCasesRunDoesNot` |
| ProducerService.Answer | src/services/producer.service.ts:59-121 | the response a stage gives; `RefusalsMapToStatus` maps its refusals to gRPC statuses |
| ProducerService.SubmitProblemStage | src/services/producer.service.ts:67-105 | past the sanitizer a submit request always reads the problem, and it only gets ready with the problem's test cases |
| ProducerService.RunProblemStage | src/services/producer.service.ts:135-166 | past the sanitizer a run request always reads the problem |
| ProducerService.ProducerService.ScreenRequest | src/services/producer.service.ts:58-66 | an unknown language code throws; otherwise the sanitizer's verdict decides, its error message carried as given |
| ProducerService.ProducerService.FetchProblem | src/services/producer.service.ts:67-77 | a cache hit skips `getProblem`; a miss calls it once and caches a non-null answer with the problem expiry |
| ProducerService.ProducerService.PrepareSubmission | src/services/producer.service.ts:67-105 | the cache-aside read happens; the submission is created exactly when the problem has test cases, before the template check |
| ProducerService.ProducerService.PrepareRun | src/services/producer.service.ts:135-166 | the cache-aside read happens; the stage is the one `RunProblemStage` gives and nothing is created |
| ProducerService.ProducerService.SubmitCodeExec | src/services/producer.service.ts:57-122 | language, sanitizer, lookup, test cases, submission, template, send, in that order; a refusal before the lookup touches nothing; the submission exists once the problem has test cases; success sends one job keyed by the submission id and answers that id |
| ProducerService.ProducerService.RunCodeExec | src/services/producer.service.ts:124-182 | refuses only a missing problem or run wrapper; the job uses the request's test cases and one temporary id as key, payload field and answer |
| ProducerService.ProducerService.CustomCodeExec | src/services/producer.service.ts:184-209 | no lookup; sends exactly language, temporary id and code under the temporary id and answers it |
| ProducerService.RefusalsMapToStatus | src/services/producer.service.ts:59-99 | a sanitizer refusal maps to invalid argument and a missing problem or template to not found |
| ProducerService.SubmitNeedsTestCasesRunDoesNot | src/services/producer.service.ts:78-79 | a problem without test cases stops submit but not run |
| ProducerService.CachedProblemShadowsCatalogue | src/services/producer.service.ts:69-76 | once cached, a problem is what later reads see, whatever the problem service would answer |
| NatsListeners.MessageBus.Publish | src/services/runCodeExecListener.service.ts:64-67 | appends one publication |
| NatsListeners.JsMsg.Ack | src/services/runCodeExecListener.service.ts:75 | appends an ack |
| NatsListeners.JsMsg.Nak | src/services/runCodeExecListener.service.ts:78 | appends a nak |
| NatsListeners.ListenerResultKey | src/services/submitCodeExecListener.service.ts:71 | the listener's result key never equals the key the submission pull reads for the same `submissionId` text |
| NatsListeners.SubmitCodeExecListener.OnResult | src/services/submitCodeExecListener.service.ts:59-93 | `null` data throws before the `try`: no reply and nothing changed; otherwise the id is the template text of `submissionId`; a marked id is acked with nothing written; otherwise the data as received under `submission:normal:<userId>:<submissionId>`, the update with `Id` set to its `problemId`, the data published as received; success neither marks nor acks; a throw naks |
| NatsListeners.RunCodeExecListener.OnResult | src/services/runCodeExecListener.service.ts:53-80 | `null` data throws before the `try` with nothing changed; otherwise the key is the template text of `userId`; a marked user is acked and dropped; otherwise the data published as received, the user marked, the ack only after the marker write; a throw naks; no result entry is written |
| NatsListeners.CustomCodeExecListener.OnResult | src/services/customCodeExecListener.service.ts:51-77 | the same sequence keyed by the template text of `tempId`, the data published as received |

## Left out

- Network I/O and client internals are not modelled. This covers connecting, subscribing, `consumer.run`, offsets, disconnect, config reload, signal hooks and the singleton. Registering a consumer is modelled; its transport is not.
- Concurrency is not modelled: overlapping worker ticks, the gap between `has` and `set` in `createConsumer`, and several processes sharing Redis. One message or one tick runs at a time.
- Metrics, logging, configuration parsing, dependency injection and bootstrapping are left out.
- The NATS client, the NATS publisher services and the gRPC transport are left out. The problem service is `ProblemClient` with a catalogue, and the NATS provider is `MessageBus` and `JsMsg`.
- The JSON parser and printer on character strings are not modelled. They are the `JsonCodec` parameter.
- Regular expressions are not modelled. They are the `Matcher` parameter, and the `lastIndex` reset is not modelled.
- Numbers in JSON documents are integers (`JNum`). Fractions and exponent forms are not modelled, and `String(n)` of a number is its plain decimal text (the source would print `1e+21` for 10^21).
- Cache expiry is recorded per key but never enforced.
- `parseInt` of a malformed `x-retry-count` is excluded: the header must be absent or a decimal numeral. Other header values, which are buffers in the client library, are kept as strings.
- Redis `zadd`, `zrem` and `zrangebyscore` always succeed. The tick is given the `zrangebyscore` answer as a sequence constrained by `RangeByScore`.
- Failures of Redis and of the problem service inside `ProducerService` are not modelled. The Kafka send there may fail.
- In `ExecutionResultService`, Redis calls always succeed.
- `publish`, `ack` and `nak` are not awaited in the listeners and always succeed.
- KafkaManager.KafkaManager.RetryTick: publishes the corrected redelivery, the parked text as it was consumed, not the double-encoded value the source sends (see Findings); the as-written record is `KafkaManager.RedeliveryAsWritten`.
- The dead-letter record is modelled as written: the consumed text is sent as a JSON string.
- KafkaManager.Retried: describes the corrected redelivery; the as-written round is `KafkaManager.RetriedAsWritten` (see Findings).
- KafkaManager.Attempt: repeats the corrected redelivery; as written, the first retry already parses to a JSON string (`KafkaManager.RetriedAsWritten`).
- KafkaManager.KafkaManager.Republish: sends corrected redeliveries; the as-written record is `KafkaManager.RedeliveryAsWritten`.
- ConsumerService.ConsumerService.RunCodeExec: subscribes to the run results topic, the corrected behaviour; the as-written subscription is `ConsumerService.SubscribedTopicAsWritten` and its effect `ConsumerService.OwnRunJobServedAsResult` (see Findings).
- ConsumerService.ConsumerService.CustomCodeExec: subscribes to the custom results topic, the corrected behaviour; the as-written effect is `ConsumerService.OwnCustomJobServedAsResult` (see Findings).
- ConsumerService.ConsumerService.OnRunMessage: the `eachMessage` wrapper is composed with its handler for the run group only; for the other two groups the handlers and `KafkaManager.KafkaManager.Deliver` are modelled separately.
- PopulateTemplate.Populate: inserts the user code and the test cases verbatim, the corrected behaviour; the as-written `$`-expansion is `PopulateTemplate.ReplaceFirstAsWritten` (see Findings).
- ProducerService.Executable: builds on the corrected `PopulateTemplate.Populate`, so user code containing `$` patterns is inserted verbatim.
- ProducerService.ProducerService.RunCodeExec: a truthy cached value that is not a problem makes the call throw, because `templateCodes.find` runs on it; `SubmitCodeExec` answers problem-not-found for the same value, because it has no `testcaseCollection`.
- PopulateTemplate.GoCases: a Go test case whose fields do not parse to integer arrays fails the population; the source would print whatever `join` makes of the value.
- `REDIS_PREFIX.NATS_IDEMPOTENCY_KEY` and `REDIS_PREFIX.CODE_MANAGE_PROBLEM_DETAILS` are not in `src/config/redis/keyPrefix.ts`. Their values are constructor parameters of the listeners and of `ProducerService`.
- `src/libs/kafka/kafkaTopics.ts` and `kafkaConsumerGroups.ts` are not part of this model. Topics and groups are distinct enumeration values.
- The enum message texts `ProblemNotFound`, `SubmissionNotFound` and `TooManyRequests` come from files that are not part of this model. They are an `ErrorTexts` parameter, assumed not to start with the sanitizer's prefix.

## Findings

| source | as written | input that shows it | evidently intended | confidence | as-written member | corrected member |
|---|---|---|---|---|---|---|
| src/libs/kafka/kafkaManager.ts:164-166 | the retry worker passes the parked value to `sendMessage`, which runs `JSON.stringify` on it again | a message whose value is `{"a":1}` and whose handler throws once: the retried message's value is `"{\"a\":1}"`, the handler receives a string instead of the object, and every id property reads `undefined` | republish the parked text as consumed, so the retry delivers the same payload | high (not executed) | KafkaManager.RedeliveryAsWrittenDoubleEncodes | KafkaManager.RedeliveryPreservesPayload |
| src/services/consumer.service.ts:83 | the run-result consumer subscribes to `RUN_JOBS`, the topic `runCodeExec` sends its jobs to (src/services/producer.service.ts:173-174), although `RUN_RESULTS` is created and announced for it (src/index.ts:28, 47) | a run request: its job is consumed by this group, cached under the user's run key, and the user's pull answers success with no execution result, time, memory, status or output | subscribe to `RUN_RESULTS`, so the cached value is the worker's result | medium (not executed) | ConsumerService.OwnRunJobServedAsResult | ConsumerService.RunResultTopicServesResult |
| src/services/consumer.service.ts:116 | the custom-result consumer subscribes to `CUSTOM_JOBS`, where `customCodeExec` sends its jobs (src/services/producer.service.ts:200-201), although `CUSTOM_RESULTS` exists (src/index.ts:30, 50) | a custom request: its job is cached under the temporary id and the pull answers it with no time, memory or output | subscribe to `CUSTOM_RESULTS` | medium (not executed) | ConsumerService.OwnCustomJobServedAsResult | ConsumerService.CustomResultTopicServesResult |
| src/utils/populateTemplate.ts:40 | the parsed user code is passed to `replace` as a replacement string, so its `$$`, `$&`, `` $` `` and `$'` are expanded | user code `'$'` in the template `A{{__USER_CODE__}}B` gives `A'BB` instead of `A'$'B` | insert the user code verbatim (a replacer function, or `split`/`join`) | medium (not executed) | PopulateTemplate.DollarQuoteSplicesTemplate | PopulateTemplate.ReplaceFirstOnlyFirst |

## Notes on the source

Each of these differs from what a reader might expect, and the model follows the code:

- Jitter is in seconds. `Math.floor(Math.random() * 1000)` is added to a delay in seconds, so a retry can wait up to about 17 minutes, not up to one second.
- There is no retry-store capacity cap, no separate parse-failure topic, no `x-first-seen` or `x-error` header and no manual commit.
- The worker reads with `zrangebyscore` and then removes each entry with `zrem`. This is not an atomic pop.
- The submit pull reads `submission:normal:<submissionId>`. The NATS submit listener writes `submission:normal:<userId>:<submissionId>`, so the pull never sees the listener's entries.
- On success, the NATS submit listener neither sets its idempotency marker nor acks the message.
- The NATS run listener's marker is keyed by user id only. A second run result for the same user within the expiry is acked and dropped.
- `customCodeExec` ignores the request's `tempId` and uses a freshly generated one.
- `submitCodeExec` creates the submission before it checks the template. A missing wrapper therefore leaves a created submission and answers problem-not-found.
