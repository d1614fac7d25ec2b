/**
 * The Kafka result handlers (src/services/consumer.service.ts). Each registers a consumer
 * group and, per message, checks an idempotency marker, caches the message's document as it
 * was received, and marks the id as processed last, so that a failure anywhere leaves the
 * marker unset and the retry path of the Kafka manager runs. All three markers share the
 * prefix `processed`.
 *
 * A handler reads nothing of the document but its id property, which a template literal turns
 * into text (`undefined` when it is missing); a `null` document makes that read throw.
 * A handler's awaited calls are numbered from 0 in the order the source makes them; the
 * `fault` parameter says which of them throws.
 */
module ConsumerService {
  import opened Wrappers
  import opened Json
  import opened JsValues
  import opened Dtos
  import opened Payloads
  import opened Enums
  import opened Faults
  import opened Cache
  import opened GrpcStatus
  import opened ExecutionResultMapper
  import opened ExecutionResultService
  import K = KafkaManager
  import P = ProblemClient

  /** The topic each group subscribes to, as written: the run and custom groups read the job topics
      the producer sends to, not the result topics created beside them. */
  function SubscribedTopicAsWritten(group: K.ConsumerGroup): K.Topic {
    match group
    case CmSubNormalExec => K.SubmissionResults
    case CmRunNormalExec => K.RunJobs
    case CmCustomNormalExec => K.CustomJobs
  }

  /** The result topic of each group, the one the service creates and announces for it. */
  function ResultTopic(group: K.ConsumerGroup): (t: K.Topic)
    ensures t != K.SubmissionJobs && t != K.RunJobs && t != K.CustomJobs && t != K.DlqQueue
  {
    match group
    case CmSubNormalExec => K.SubmissionResults
    case CmRunNormalExec => K.RunResults
    case CmCustomNormalExec => K.CustomResults
  }

  /** A `null` payload: reading its id property throws. */
  predicate Nullish(payload: Option<Json>) {
    payload.None? || payload.value.JNull?
  }

  /** Whether the run-result handler returns normally on `payload`, given the cache entries before it runs:
      the payload is not `null`, the marker read succeeds, and either the marker is already set or every
      write succeeds. */
  predicate RunHandled(codec: JsonCodec, entries: map<string, CacheValue>, payload: Option<Json>, fault: Fault) {
    && !Nullish(payload)
    && Reaches(fault, 1)
    && (Truthy(Cached(entries, Key(KafkaIdempotencyKey, PropText(codec, payload.value, "userId")))) || Reaches(fault, 3))
  }

  class ConsumerService {
    const kafka: K.KafkaManager
    const cache: CacheStore
    const problems: P.ProblemClient
    /** The string-level JSON functions, needed to turn an id property into text. */
    const codec: JsonCodec

    constructor (kafka: K.KafkaManager, cache: CacheStore, problems: P.ProblemClient, codec: JsonCodec)
      ensures this.kafka == kafka && this.cache == cache && this.problems == problems && this.codec == codec
    {
      this.kafka := kafka;
      this.cache := cache;
      this.problems := problems;
      this.codec := codec;
    }

    /** `submitCodeExec`: the submission-result handler's group reads the submission results topic,
        with the default dead-letter topic. */
    method SubmitCodeExec() returns (c: K.Consumer)
      requires kafka.Valid()
      modifies kafka
      ensures kafka.Valid()
      ensures K.CmSubNormalExec !in old(kafka.consumers) ==>
        c == K.Consumer(K.CmSubNormalExec, ResultTopic(K.CmSubNormalExec), Some(K.DlqQueue))
        && kafka.consumers == old(kafka.consumers)[K.CmSubNormalExec := c]
      ensures K.CmSubNormalExec in old(kafka.consumers) ==> kafka.consumers == old(kafka.consumers)
      ensures kafka.outbox == old(kafka.outbox) && kafka.retryStore == old(kafka.retryStore)
    {
      c := kafka.CreateConsumer(K.CmSubNormalExec, ResultTopic(K.CmSubNormalExec), Some(K.DlqQueue));
    }

    /** `runCodeExec`: the run-result handler's group reads the run results topic. */
    method RunCodeExec() returns (c: K.Consumer)
      requires kafka.Valid()
      modifies kafka
      ensures kafka.Valid()
      ensures K.CmRunNormalExec !in old(kafka.consumers) ==>
        c == K.Consumer(K.CmRunNormalExec, ResultTopic(K.CmRunNormalExec), Some(K.DlqQueue))
        && kafka.consumers == old(kafka.consumers)[K.CmRunNormalExec := c]
      ensures K.CmRunNormalExec in old(kafka.consumers) ==> kafka.consumers == old(kafka.consumers)
      ensures kafka.outbox == old(kafka.outbox) && kafka.retryStore == old(kafka.retryStore)
    {
      c := kafka.CreateConsumer(K.CmRunNormalExec, ResultTopic(K.CmRunNormalExec), Some(K.DlqQueue));
    }

    /** `customCodeExec`: the custom-result handler's group reads the custom results topic. */
    method CustomCodeExec() returns (c: K.Consumer)
      requires kafka.Valid()
      modifies kafka
      ensures kafka.Valid()
      ensures K.CmCustomNormalExec !in old(kafka.consumers) ==>
        c == K.Consumer(K.CmCustomNormalExec, ResultTopic(K.CmCustomNormalExec), Some(K.DlqQueue))
        && kafka.consumers == old(kafka.consumers)[K.CmCustomNormalExec := c]
      ensures K.CmCustomNormalExec in old(kafka.consumers) ==> kafka.consumers == old(kafka.consumers)
      ensures kafka.outbox == old(kafka.outbox) && kafka.retryStore == old(kafka.retryStore)
    {
      c := kafka.CreateConsumer(K.CmCustomNormalExec, ResultTopic(K.CmCustomNormalExec), Some(K.DlqQueue));
    }

    /** The submission-result handler. Calls: 0 marker get, 1 document set, 2 `updateSubmission`,
        3 marker set. `ok == false` is the handler throwing. */
    method HandleSubmissionResult(payload: Option<Json>, fault: Fault) returns (ok: bool)
      modifies cache, problems
      ensures Nullish(payload) ==> !ok && unchanged(cache) && unchanged(problems)
      ensures !Nullish(payload) ==>
        var data := payload.value;
        var id := PropText(codec, data, "submissionId");
        var marker := Key(KafkaIdempotencyKey, id);
        var resultKey := Key(SubmissionNormalCache, id);
        var firstTime := Reaches(fault, 1) && !Truthy(old(cache.Get(marker)));
        && (!Reaches(fault, 1) ==> !ok)
        && (Reaches(fault, 1) && !firstTime ==> ok)
        && (firstTime ==> ok == Reaches(fault, 4))
        && (ok ==> Truthy(cache.Get(marker)))
        && cache.entries == (
          if firstTime && Reaches(fault, 4) then old(cache.entries)[resultKey := Document(data)][marker := Marker("1")]
          else if firstTime && Reaches(fault, 2) then old(cache.entries)[resultKey := Document(data)]
          else old(cache.entries))
        && cache.ttls == (
          if firstTime && Reaches(fault, 4) then old(cache.ttls)[resultKey := SubmissionDetailsExpiry][marker := KafkaIdempotencyExpiry]
          else if firstTime && Reaches(fault, 2) then old(cache.ttls)[resultKey := SubmissionDetailsExpiry]
          else old(cache.ttls))
        && problems.updates == (
          if firstTime && Reaches(fault, 3) then old(problems.updates) + [UpdateSubmissionRequest(Prop(data, "problemId"), data)]
          else old(problems.updates))
        && problems.catalogue == old(problems.catalogue) && problems.created == old(problems.created)
    {
      if Nullish(payload) {
        return false;
      }
      var data := payload.value;
      var marker := Key(KafkaIdempotencyKey, PropText(codec, data, "submissionId"));
      if Throws(fault, 0) {
        return false;
      }
      if Truthy(cache.Get(marker)) {
        return true;
      }
      ok := cache.Set(Key(SubmissionNormalCache, PropText(codec, data, "submissionId")), Document(data), SubmissionDetailsExpiry, Throws(fault, 1));
      if !ok {
        return;
      }
      ok := problems.UpdateSubmission(UpdateSubmissionRequest(Prop(data, "problemId"), data), Throws(fault, 2));
      if !ok {
        return;
      }
      ok := cache.Set(marker, Marker("1"), KafkaIdempotencyExpiry, Throws(fault, 3));
    }

    /** The run-result handler. Calls: 0 marker get, 1 document set, 2 marker set; keyed by user id. */
    method HandleRunResult(payload: Option<Json>, fault: Fault) returns (ok: bool)
      modifies cache
      ensures ok == RunHandled(codec, old(cache.entries), payload, fault)
      ensures Nullish(payload) ==> !ok && unchanged(cache)
      ensures !Nullish(payload) ==>
        var data := payload.value;
        var id := PropText(codec, data, "userId");
        var marker := Key(KafkaIdempotencyKey, id);
        var resultKey := Key(RunCodeNormalCache, id);
        var firstTime := Reaches(fault, 1) && !Truthy(old(cache.Get(marker)));
        && (!Reaches(fault, 1) ==> !ok)
        && (Reaches(fault, 1) && !firstTime ==> ok)
        && (firstTime ==> ok == Reaches(fault, 3))
        && (ok ==> Truthy(cache.Get(marker)))
        && cache.entries == (
          if firstTime && Reaches(fault, 3) then old(cache.entries)[resultKey := Document(data)][marker := Marker("1")]
          else if firstTime && Reaches(fault, 2) then old(cache.entries)[resultKey := Document(data)]
          else old(cache.entries))
        && cache.ttls == (
          if firstTime && Reaches(fault, 3) then old(cache.ttls)[resultKey := SubmissionDetailsExpiry][marker := KafkaIdempotencyExpiry]
          else if firstTime && Reaches(fault, 2) then old(cache.ttls)[resultKey := SubmissionDetailsExpiry]
          else old(cache.ttls))
    {
      if Nullish(payload) {
        return false;
      }
      var data := payload.value;
      var marker := Key(KafkaIdempotencyKey, PropText(codec, data, "userId"));
      if Throws(fault, 0) {
        return false;
      }
      if Truthy(cache.Get(marker)) {
        return true;
      }
      ok := cache.Set(Key(RunCodeNormalCache, PropText(codec, data, "userId")), Document(data), SubmissionDetailsExpiry, Throws(fault, 1));
      if !ok {
        return;
      }
      ok := cache.Set(marker, Marker("1"), KafkaIdempotencyExpiry, Throws(fault, 2));
    }

    /** The custom-result handler. Calls: 0 marker get, 1 document set, 2 marker set; keyed by temp id. */
    method HandleCustomResult(payload: Option<Json>, fault: Fault) returns (ok: bool)
      modifies cache
      ensures Nullish(payload) ==> !ok && unchanged(cache)
      ensures !Nullish(payload) ==>
        var data := payload.value;
        var id := PropText(codec, data, "tempId");
        var marker := Key(KafkaIdempotencyKey, id);
        var resultKey := Key(CustomCodeNormalCache, id);
        var firstTime := Reaches(fault, 1) && !Truthy(old(cache.Get(marker)));
        && (!Reaches(fault, 1) ==> !ok)
        && (Reaches(fault, 1) && !firstTime ==> ok)
        && (firstTime ==> ok == Reaches(fault, 3))
        && (ok ==> Truthy(cache.Get(marker)))
        && cache.entries == (
          if firstTime && Reaches(fault, 3) then old(cache.entries)[resultKey := Document(data)][marker := Marker("1")]
          else if firstTime && Reaches(fault, 2) then old(cache.entries)[resultKey := Document(data)]
          else old(cache.entries))
        && cache.ttls == (
          if firstTime && Reaches(fault, 3) then old(cache.ttls)[resultKey := RunCodeDetailsExpiry][marker := KafkaIdempotencyExpiry]
          else if firstTime && Reaches(fault, 2) then old(cache.ttls)[resultKey := RunCodeDetailsExpiry]
          else old(cache.ttls))
    {
      if Nullish(payload) {
        return false;
      }
      var data := payload.value;
      var marker := Key(KafkaIdempotencyKey, PropText(codec, data, "tempId"));
      if Throws(fault, 0) {
        return false;
      }
      if Truthy(cache.Get(marker)) {
        return true;
      }
      ok := cache.Set(Key(CustomCodeNormalCache, PropText(codec, data, "tempId")), Document(data), RunCodeDetailsExpiry, Throws(fault, 1));
      if !ok {
        return;
      }
      ok := cache.Set(marker, Marker("1"), KafkaIdempotencyExpiry, Throws(fault, 2));
    }

    /** A message on the run results topic, through the Kafka manager's `eachMessage` wrapper: a payload
        that does not parse never reaches the handler, and a handler that throws takes the same single
        retry path; a handled message leaves the producer and the retry store alone. */
    method OnRunMessage(msg: K.Message, fault: Fault, now: nat, jitter: nat, sendFails: bool) returns (ok: bool)
      requires kafka.Valid() && K.CmRunNormalExec in kafka.consumers
      requires K.RetryHeaderWellFormed(msg.headers) && jitter < K.JitterBound
      modifies kafka, cache
      ensures kafka.Valid() && kafka.consumers == old(kafka.consumers)
      ensures K.DecodePayload(msg).None? ==> unchanged(cache)
      ensures var handled := K.DecodePayload(msg).Some? && RunHandled(codec, old(cache.entries), K.DecodePayload(msg).value, fault);
        && (handled ==> ok && kafka.outbox == old(kafka.outbox) && kafka.retryStore == old(kafka.retryStore))
        && (!handled ==> (kafka.outbox, kafka.retryStore, ok) == K.AfterRetry(old(kafka.outbox), old(kafka.retryStore),
              old(kafka.producer).Some?,
              K.RetryActionFor(old(kafka.consumers)[K.CmRunNormalExec].topic, msg, old(kafka.consumers)[K.CmRunNormalExec].dlqTopic, now, jitter),
              sendFails))
    {
      var payload := K.DecodePayload(msg);
      var handled := false;
      if payload.Some? {
        handled := HandleRunResult(payload.value, fault);
      }
      ok := kafka.Deliver(K.CmRunNormalExec, msg, handled, now, jitter, sendFails);
    }
  }

  /** The three handlers share one marker namespace: results of different kinds whose ids coincide
      share a marker, and only equal ids do. */
  lemma MarkersShareNamespace(x: string, y: string)
    ensures Key(KafkaIdempotencyKey, x) == Key(KafkaIdempotencyKey, y) <==> x == y
  {
    if Key(KafkaIdempotencyKey, x) == Key(KafkaIdempotencyKey, y) {
      KeyInjective(KafkaIdempotencyKey, x, y);
    }
  }

  /** Documents that lack the id property all land on the one marker `processed:undefined`: once one of
      them is processed, every later one is dropped as a duplicate. */
  lemma MissingIdsShareMarker(codec: JsonCodec, a: Json, b: Json, field: string)
    requires Prop(a, field).None? && Prop(b, field).None?
    ensures Key(KafkaIdempotencyKey, PropText(codec, a, field)) == Key(KafkaIdempotencyKey, "undefined")
    ensures Key(KafkaIdempotencyKey, PropText(codec, a, field)) == Key(KafkaIdempotencyKey, PropText(codec, b, field))
  {
  }

  /**
   * As written, the run group reads the run jobs topic, where the producer sends the run job itself.
   * Handling that job caches it under its user's key, and the user's next pull answers it as the
   * result: success, with no execution result, time, memory, status or output.
   */
  lemma OwnRunJobServedAsResult(codec: JsonCodec, entries: map<string, CacheValue>, request: RunCodeExecRequest,
                                tempId: string, executable: string, language: Language)
    ensures SubscribedTopicAsWritten(K.CmRunNormalExec) == K.RunJobs
    ensures PropText(codec, RunJob(request, tempId, executable, language), "userId") == request.userId
    ensures var key := Key(RunCodeNormalCache, request.userId);
      var written := entries[key := Document(RunJob(request, tempId, executable, language))]
                            [Key(KafkaIdempotencyKey, request.userId) := Marker("1")];
      RunPull(codec, written, request.userId) == (Ok(RunResultOut(RunCodeResultOut(None, None, None, None, None))), written - {key})
  {
    var job := RunJob(request, tempId, executable, language);
    RunJobHasNoResultFields(request, tempId, executable, language);
    LookupAt(job.fields, "userId", 1);
    RunWriteThenPull(codec, entries, job, request.userId);
  }

  /** A run job names none of the fields a run result is projected onto. */
  lemma RunJobHasNoResultFields(request: RunCodeExecRequest, tempId: string, executable: string, language: Language)
    ensures var f := RunJob(request, tempId, executable, language).fields;
      Lookup(f, "executionResult").None? && Lookup(f, "executionTime").None? && Lookup(f, "memoryUsage").None?
      && Lookup(f, "status").None? && Lookup(f, "stdOut").None?
  {
    var f := RunJob(request, tempId, executable, language).fields;
    LookupAbsent(f, "executionResult");
    LookupAbsent(f, "executionTime");
    LookupAbsent(f, "memoryUsage");
    LookupAbsent(f, "status");
    LookupAbsent(f, "stdOut");
  }

  /** As written, the custom group reads the custom jobs topic; the custom job it caches is answered as
      the result, with no time, memory or output. */
  lemma OwnCustomJobServedAsResult(codec: JsonCodec, entries: map<string, CacheValue>, language: Language,
                                   tempId: string, userCode: string)
    ensures SubscribedTopicAsWritten(K.CmCustomNormalExec) == K.CustomJobs
    ensures PropText(codec, CustomJob(language, tempId, userCode), "tempId") == tempId
    ensures var key := Key(CustomCodeNormalCache, tempId);
      var written := entries[key := Document(CustomJob(language, tempId, userCode))][Key(KafkaIdempotencyKey, tempId) := Marker("1")];
      CustomPull(codec, written, tempId) == (Ok(CustomResultOut(CustomCodeResultOut(None, None, None))), written - {key})
  {
    var job := CustomJob(language, tempId, userCode);
    LookupAt(job.fields, "tempId", 1);
    LookupAbsent(job.fields, "executionTime");
    LookupAbsent(job.fields, "memoryUsage");
    LookupAbsent(job.fields, "stdOut");
    CustomWriteThenPull(codec, entries, job, tempId);
  }

  /**
   * With the result topics, the run group never reads the job the producer sends, and a run result
   * the workers publish there reaches its user with every field it carries.
   */
  lemma RunResultTopicServesResult(codec: JsonCodec, entries: map<string, CacheValue>, r: RunResult)
    ensures ResultTopic(K.CmRunNormalExec) == K.RunResults != K.RunJobs
    ensures PropText(codec, EncodeRunResult(r), "userId") == r.userId
    ensures var key := Key(RunCodeNormalCache, r.userId);
      var written := entries[key := Document(EncodeRunResult(r))][Key(KafkaIdempotencyKey, r.userId) := Marker("1")];
      RunPull(codec, written, r.userId) == (Ok(RunResultOut(RunCodeResultOut(
        Some(r.executionResult), Some(JNum(r.executionTime)), Some(JNum(r.memoryUsage)), Some(Str(r.status)),
        if r.stdOut.Some? && r.stdOut.value != "" then Some(Str(r.stdOut.value)) else None))), written - {key})
  {
    LookupAt(EncodeRunResult(r).fields, "userId", 1);
    RunProjectionOfEncoded(r);
    RunWriteThenPull(codec, entries, EncodeRunResult(r), r.userId);
  }

  /** With the result topics, a custom result reaches its requester with its time, memory and output. */
  lemma CustomResultTopicServesResult(codec: JsonCodec, entries: map<string, CacheValue>, r: CustomResult)
    ensures ResultTopic(K.CmCustomNormalExec) == K.CustomResults != K.CustomJobs
    ensures PropText(codec, EncodeCustomResult(r), "tempId") == r.tempId
    ensures var key := Key(CustomCodeNormalCache, r.tempId);
      var written := entries[key := Document(EncodeCustomResult(r))][Key(KafkaIdempotencyKey, r.tempId) := Marker("1")];
      CustomPull(codec, written, r.tempId)
        == (Ok(CustomResultOut(CustomCodeResultOut(Some(JNum(r.executionTime)), Some(JNum(r.memoryUsage)), Some(Str(r.stdOut))))),
            written - {key})
  {
    LookupAt(EncodeCustomResult(r).fields, "tempId", 0);
    CustomProjectionOfEncoded(r);
    CustomWriteThenPull(codec, entries, EncodeCustomResult(r), r.tempId);
  }

  /** A submission result the workers publish reaches its user with its four projected fields. */
  lemma SubmissionResultServed(codec: JsonCodec, entries: map<string, CacheValue>, s: SubmissionResult)
    ensures PropText(codec, EncodeSubmissionResult(s), "submissionId") == s.submissionId
    ensures var key := Key(SubmissionNormalCache, s.submissionId);
      var written := entries[key := Document(EncodeSubmissionResult(s))][Key(KafkaIdempotencyKey, s.submissionId) := Marker("1")];
      SubmitPull(codec, written, s.userId, s.submissionId)
        == (Ok(SubmitResultOut(SubmitCodeResultOut(Some(s.executionResult), Some(JNum(s.executionTime)),
              Some(JNum(s.memoryUsage)), Some(Str(s.status))))), written - {key})
  {
    SubmissionResultLeadingFields(s);
    SubmitProjectionOfEncoded(s);
    SubmitWriteThenPull(codec, entries, EncodeSubmissionResult(s), s.userId, s.submissionId);
  }

  /** As written, a retried message reaches the handler as a JSON string, whose id property is `undefined`:
      a retried result of any kind is cached under the id `undefined`, and once one of them has been
      processed the marker `processed:undefined` drops every later one. */
  lemma RetryAsWrittenLosesId(codec: JsonCodec, topic: K.Topic, msg: K.Message, field: string)
    requires K.RetryHeaderWellFormed(msg.headers) && msg.value.Some?
    ensures var payload := K.DecodePayload(K.RetriedAsWritten(topic, msg));
      payload.Some? && !Nullish(payload.value) && PropText(codec, payload.value.value, field) == "undefined"
  {
  }
}
