/**
 * Result pulls (src/services/executionResult.service.ts): read the cached value under the key
 * the caller's ids name, refuse it to anyone but its owner, and on success delete it and answer
 * its projection. Each pull is specified by a function giving the answer and the entries left
 * behind. The cached value is whatever a handler stored; it is read with JavaScript's property
 * access, so a value without the owner property is refused as unauthorized.
 */
module ExecutionResultService {
  import opened Wrappers
  import opened Json
  import opened JsValues
  import opened Dtos
  import opened Payloads
  import opened Cache
  import opened GrpcStatus
  import opened ExecutionResultMapper

  /** What `get(key)` answers on the given entries. */
  function Cached(entries: map<string, CacheValue>, key: string): Option<CacheValue> {
    if key in entries then Some(entries[key]) else None
  }

  /** `value[field] === id`: only a document whose property is that string passes. */
  predicate OwnedBy(codec: JsonCodec, value: CacheValue, field: string, id: string) {
    value.Document? && IsString(codec, Prop(value.doc, field), id)
  }

  /** `submitCodeResult(userId, submissionId)`. */
  function SubmitPull(codec: JsonCodec, entries: map<string, CacheValue>, userId: string, submissionId: string)
    : (r: (Response, map<string, CacheValue>))
    ensures var key := Key(SubmissionNormalCache, submissionId);
      r.0.Ok? <==> Truthy(Cached(entries, key)) && OwnedBy(codec, entries[key], "userId", userId)
  {
    var key := Key(SubmissionNormalCache, submissionId);
    if !Truthy(Cached(entries, key)) then (Err(SubmitCodeResultNotFound), entries)
    else if !OwnedBy(codec, entries[key], "userId", userId) then (Err(UnauthorizedAccess), entries)
    else (Ok(SubmitResultOut(ToSubmitCodeResultOutDTO(entries[key].doc))), entries - {key})
  }

  /** `runCodeResult(userId)`. */
  function RunPull(codec: JsonCodec, entries: map<string, CacheValue>, userId: string): (r: (Response, map<string, CacheValue>))
    ensures var key := Key(RunCodeNormalCache, userId);
      r.0.Ok? <==> Truthy(Cached(entries, key)) && OwnedBy(codec, entries[key], "userId", userId)
  {
    var key := Key(RunCodeNormalCache, userId);
    if !Truthy(Cached(entries, key)) then (Err(RunCodeResultNotFound), entries)
    else if !OwnedBy(codec, entries[key], "userId", userId) then (Err(UnauthorizedAccess), entries)
    else (Ok(RunResultOut(ToRunCodeResultOutDTO(entries[key].doc))), entries - {key})
  }

  /** `customCodeResult(tempId)`; a missing result is reported with the run-result message. */
  function CustomPull(codec: JsonCodec, entries: map<string, CacheValue>, tempId: string): (r: (Response, map<string, CacheValue>))
    ensures var key := Key(CustomCodeNormalCache, tempId);
      r.0.Ok? <==> Truthy(Cached(entries, key)) && OwnedBy(codec, entries[key], "tempId", tempId)
  {
    var key := Key(CustomCodeNormalCache, tempId);
    if !Truthy(Cached(entries, key)) then (Err(RunCodeResultNotFound), entries)
    else if !OwnedBy(codec, entries[key], "tempId", tempId) then (Err(UnauthorizedAccess), entries)
    else (Ok(CustomResultOut(ToCustomCodeResultOutDTO(entries[key].doc))), entries - {key})
  }

  class ExecutionResultService {
    const cache: CacheStore
    /** The string-level JSON functions, needed to compare an owner property with an id. */
    const codec: JsonCodec

    constructor (cache: CacheStore, codec: JsonCodec)
      ensures this.cache == cache && this.codec == codec
    {
      this.cache := cache;
      this.codec := codec;
    }

    method SubmitCodeResult(userId: string, submissionId: string) returns (r: Response)
      modifies cache
      ensures (r, cache.entries) == SubmitPull(codec, old(cache.entries), userId, submissionId)
      ensures cache.ttls == if r.Ok? then old(cache.ttls) - {Key(SubmissionNormalCache, submissionId)} else old(cache.ttls)
    {
      var key := Key(SubmissionNormalCache, submissionId);
      var found := cache.Get(key);
      if !Truthy(found) {
        return Err(SubmitCodeResultNotFound);
      }
      if !OwnedBy(codec, found.value, "userId", userId) {
        return Err(UnauthorizedAccess);
      }
      cache.Del(key);
      r := Ok(SubmitResultOut(ToSubmitCodeResultOutDTO(found.value.doc)));
    }

    method RunCodeResult(userId: string) returns (r: Response)
      modifies cache
      ensures (r, cache.entries) == RunPull(codec, old(cache.entries), userId)
      ensures cache.ttls == if r.Ok? then old(cache.ttls) - {Key(RunCodeNormalCache, userId)} else old(cache.ttls)
    {
      var key := Key(RunCodeNormalCache, userId);
      var found := cache.Get(key);
      if !Truthy(found) {
        return Err(RunCodeResultNotFound);
      }
      if !OwnedBy(codec, found.value, "userId", userId) {
        return Err(UnauthorizedAccess);
      }
      cache.Del(key);
      r := Ok(RunResultOut(ToRunCodeResultOutDTO(found.value.doc)));
    }

    method CustomCodeResult(tempId: string) returns (r: Response)
      modifies cache
      ensures (r, cache.entries) == CustomPull(codec, old(cache.entries), tempId)
      ensures cache.ttls == if r.Ok? then old(cache.ttls) - {Key(CustomCodeNormalCache, tempId)} else old(cache.ttls)
    {
      var key := Key(CustomCodeNormalCache, tempId);
      var found := cache.Get(key);
      if !Truthy(found) {
        return Err(RunCodeResultNotFound);
      }
      if !OwnedBy(codec, found.value, "tempId", tempId) {
        return Err(UnauthorizedAccess);
      }
      cache.Del(key);
      r := Ok(CustomResultOut(ToCustomCodeResultOutDTO(found.value.doc)));
    }
  }

  /** A pull deletes at most the key its arguments name, and only when it answers with the result;
      a refusal leaves the store as it was. */
  lemma PullsTouchOnlyTheirKey(codec: JsonCodec, entries: map<string, CacheValue>, userId: string, id: string)
    ensures var (r, after) := SubmitPull(codec, entries, userId, id);
      after == if r.Ok? then entries - {Key(SubmissionNormalCache, id)} else entries
    ensures var (r, after) := RunPull(codec, entries, userId);
      after == if r.Ok? then entries - {Key(RunCodeNormalCache, userId)} else entries
    ensures var (r, after) := CustomPull(codec, entries, id);
      after == if r.Ok? then entries - {Key(CustomCodeNormalCache, id)} else entries
  {
  }

  /** A result cached for one user is never handed to another, and stays in place. */
  lemma OtherOwnerRefused(codec: JsonCodec, entries: map<string, CacheValue>, userId: string, submissionId: string, owner: string)
    requires Key(SubmissionNormalCache, submissionId) in entries
    requires entries[Key(SubmissionNormalCache, submissionId)].Document?
    requires Prop(entries[Key(SubmissionNormalCache, submissionId)].doc, "userId") == Some(Str(owner))
    requires owner != userId
    ensures SubmitPull(codec, entries, userId, submissionId) == (Err(UnauthorizedAccess), entries)
  {
  }

  /** A marker or a problem under a result key is no result: it is present but refused to everyone. */
  lemma NonDocumentRefused(codec: JsonCodec, entries: map<string, CacheValue>, userId: string, id: string)
    requires Key(RunCodeNormalCache, userId) in entries && !entries[Key(RunCodeNormalCache, userId)].Document?
    requires Truthy(Some(entries[Key(RunCodeNormalCache, userId)]))
    ensures RunPull(codec, entries, userId) == (Err(UnauthorizedAccess), entries)
  {
  }

  /** Results are read once: right after a successful pull, the same pull finds nothing. */
  lemma SecondPullNotFound(codec: JsonCodec, entries: map<string, CacheValue>, userId: string, id: string)
    ensures SubmitPull(codec, entries, userId, id).0.Ok? ==>
      SubmitPull(codec, SubmitPull(codec, entries, userId, id).1, userId, id).0 == Err(SubmitCodeResultNotFound)
    ensures RunPull(codec, entries, userId).0.Ok? ==>
      RunPull(codec, RunPull(codec, entries, userId).1, userId).0 == Err(RunCodeResultNotFound)
    ensures CustomPull(codec, entries, id).0.Ok? ==>
      CustomPull(codec, CustomPull(codec, entries, id).1, id).0 == Err(RunCodeResultNotFound)
  {
  }

  /** What the submission handler leaves behind (document, then marker) is what the pull hands to the
      user the document names, and the pull takes exactly the document out. */
  lemma SubmitWriteThenPull(codec: JsonCodec, entries: map<string, CacheValue>, doc: Json, userId: string, id: string)
    requires IsString(codec, Prop(doc, "userId"), userId)
    ensures var written := entries[Key(SubmissionNormalCache, id) := Document(doc)][Key(KafkaIdempotencyKey, id) := Marker("1")];
      SubmitPull(codec, written, userId, id)
        == (Ok(SubmitResultOut(ToSubmitCodeResultOutDTO(doc))), written - {Key(SubmissionNormalCache, id)})
  {
    NamespacesDisjoint(id, id);
  }

  /** The same for the run handler, keyed by the user id. */
  lemma RunWriteThenPull(codec: JsonCodec, entries: map<string, CacheValue>, doc: Json, userId: string)
    requires IsString(codec, Prop(doc, "userId"), userId)
    ensures var written := entries[Key(RunCodeNormalCache, userId) := Document(doc)][Key(KafkaIdempotencyKey, userId) := Marker("1")];
      RunPull(codec, written, userId)
        == (Ok(RunResultOut(ToRunCodeResultOutDTO(doc))), written - {Key(RunCodeNormalCache, userId)})
  {
    NamespacesDisjoint(userId, userId);
  }

  /** The same for the custom handler, keyed by the temporary id. */
  lemma CustomWriteThenPull(codec: JsonCodec, entries: map<string, CacheValue>, doc: Json, tempId: string)
    requires IsString(codec, Prop(doc, "tempId"), tempId)
    ensures var written := entries[Key(CustomCodeNormalCache, tempId) := Document(doc)][Key(KafkaIdempotencyKey, tempId) := Marker("1")];
      CustomPull(codec, written, tempId)
        == (Ok(CustomResultOut(ToCustomCodeResultOutDTO(doc))), written - {Key(CustomCodeNormalCache, tempId)})
  {
    NamespacesDisjoint(tempId, tempId);
  }

  /** A document without an owner string is cached but never handed out. */
  lemma OwnerlessDocumentRefused(codec: JsonCodec, entries: map<string, CacheValue>, doc: Json, userId: string)
    requires Prop(doc, "userId").None?
    requires JsTruthy(doc)
    ensures RunPull(codec, entries[Key(RunCodeNormalCache, userId) := Document(doc)], userId).0 == Err(UnauthorizedAccess)
  {
  }

  /** The NATS submission listener's entry, keyed under the user id as well, is invisible to the
      submission pull for the same ids. */
  lemma ListenerEntryNotPulled(codec: JsonCodec, entries: map<string, CacheValue>, s: SubmissionResult)
    ensures SubmitPull(codec, entries[Key(Key(SubmissionNormalCache, s.userId), s.submissionId) := Document(EncodeSubmissionResult(s))],
        s.userId, s.submissionId).0
      == SubmitPull(codec, entries, s.userId, s.submissionId).0
  {
    NestedKeyDiffers(SubmissionNormalCache, s.userId, s.submissionId);
  }

  /** A missing custom result is reported with the run-result message, which is not the custom one. */
  lemma CustomMissingReportsRunMessage(codec: JsonCodec, entries: map<string, CacheValue>, tempId: string)
    requires Key(CustomCodeNormalCache, tempId) !in entries
    ensures CustomPull(codec, entries, tempId).0 == Err(RunCodeResultNotFound)
    ensures CustomPull(codec, entries, tempId).0 != Err(CustomCodeResultNotFound)
  {
  }
}
