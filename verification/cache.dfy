/**
 * The Redis cache the services share (`ICacheProvider`): string keys built as
 * `<prefix>:<id>`, values as the services store them, and the expiry each write names.
 */
module Cache {
  import opened Wrappers
  import opened Json
  import opened Dtos
  import opened JsValues

  const SubmissionNormalCache: string := "submission:normal"
  const RunCodeNormalCache: string := "run:normal"
  const CustomCodeNormalCache: string := "custom:normal"
  const KafkaIdempotencyKey: string := "processed"

  /** A cache key: prefix, colon, id. */
  function Key(prefix: string, id: string): (k: string)
    ensures |k| == |prefix| + 1 + |id|
    ensures k[..|prefix|] == prefix && k[|prefix|] == ':' && k[|prefix| + 1..] == id
  {
    prefix + ":" + id
  }

  /** A value under a key: the idempotency marker text, a result document stored as it was received,
      or a cached problem. */
  datatype CacheValue =
    | Marker(flag: string)
    | Document(doc: Json)
    | ProblemEntry(problem: Problem)

  /** The configured time-to-live a write names; expiry itself is not modelled. */
  datatype Expiry =
    | SubmissionDetailsExpiry
    | RunCodeDetailsExpiry
    | KafkaIdempotencyExpiry
    | NatsIdempotencyExpiry
    | ProblemDetailsExpiry

  /** JavaScript truthiness of what `get` returns: a missing key, an empty marker and a falsy document
      (`null`, `false`, `0`, `""`) are falsy. */
  predicate Truthy(v: Option<CacheValue>) {
    match v
    case None => false
    case Some(Marker(flag)) => flag != ""
    case Some(Document(doc)) => JsTruthy(doc)
    case Some(ProblemEntry(_)) => true
  }

  class CacheStore {
    var entries: map<string, CacheValue>
    var ttls: map<string, Expiry>

    constructor ()
      ensures entries == map[] && ttls == map[]
    {
      entries := map[];
      ttls := map[];
    }

    /** `get(key)`. */
    function Get(key: string): (v: Option<CacheValue>)
      reads this
      ensures v.Some? <==> key in entries
      ensures v.Some? ==> v.value == entries[key]
    {
      if key in entries then Some(entries[key]) else None
    }

    /** `set(key, value, ttl)`; when `fails` the write throws and nothing is stored. */
    method Set(key: string, value: CacheValue, ttl: Expiry, fails: bool) returns (ok: bool)
      modifies this
      ensures ok == !fails
      ensures ok ==> entries == old(entries)[key := value] && ttls == old(ttls)[key := ttl]
      ensures !ok ==> entries == old(entries) && ttls == old(ttls)
    {
      ok := !fails;
      if ok {
        entries := entries[key := value];
        ttls := ttls[key := ttl];
      }
    }

    /** `del(key)`. */
    method Del(key: string)
      modifies this
      ensures entries == old(entries) - {key} && ttls == old(ttls) - {key}
    {
      entries := entries - {key};
      ttls := ttls - {key};
    }
  }

  /** A key determines its id once the prefix is fixed. */
  lemma KeyInjective(prefix: string, a: string, b: string)
    requires Key(prefix, a) == Key(prefix, b)
    ensures a == b
  {
    assert a == Key(prefix, a)[|prefix| + 1..];
  }

  /** The idempotency markers and the three result namespaces never share a key, whatever the ids. */
  lemma NamespacesDisjoint(a: string, b: string)
    ensures Key(KafkaIdempotencyKey, a) != Key(SubmissionNormalCache, b)
    ensures Key(KafkaIdempotencyKey, a) != Key(RunCodeNormalCache, b)
    ensures Key(KafkaIdempotencyKey, a) != Key(CustomCodeNormalCache, b)
    ensures Key(SubmissionNormalCache, a) != Key(RunCodeNormalCache, b)
    ensures Key(SubmissionNormalCache, a) != Key(CustomCodeNormalCache, b)
    ensures Key(RunCodeNormalCache, a) != Key(CustomCodeNormalCache, b)
  {
    assert Key(KafkaIdempotencyKey, a)[0] == 'p';
    assert Key(SubmissionNormalCache, a)[0] == 's' && Key(SubmissionNormalCache, b)[0] == 's';
    assert Key(RunCodeNormalCache, a)[0] == 'r' && Key(RunCodeNormalCache, b)[0] == 'r';
    assert Key(CustomCodeNormalCache, b)[0] == 'c';
  }

  /** A key nested under a user id (`<prefix>:<userId>:<id>`) is never the plain key for the same id. */
  lemma NestedKeyDiffers(prefix: string, userId: string, id: string)
    ensures Key(Key(prefix, userId), id) != Key(prefix, id)
  {
  }
}
