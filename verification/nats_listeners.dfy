/**
 * The three NATS JetStream result listeners. Each callback receives the decoded message data, any
 * JSON value, and its message; it reads the id it needs with JavaScript's property access, checks
 * an idempotency marker, and then publishes the data as received to the WebSocket gateway's
 * per-id subject. Reading an id of `null` throws before the `try`, so nothing is replied; every
 * other path ends in an `ack`, a `nak`, or (submit success) neither.
 *
 * The awaited calls of a callback are numbered from 0 in source order and the `fault`
 * parameter says which of them throws; `publish`, `ack` and `nak` are not awaited and always
 * return. The idempotency prefix is a constructor parameter: the prefix table of the service
 * does not define `NATS_IDEMPOTENCY_KEY`.
 */
module NatsListeners {
  import opened Wrappers
  import opened Json
  import opened JsValues
  import opened Dtos
  import opened Faults
  import opened Cache
  import P = ProblemClient

  /** The gateway subjects a listener publishes to, one per result id. */
  datatype Subject =
    | SubmissionResultSubject(submissionId: string)
    | RunResultSubject(userId: string)
    | CustomResultSubject(tempId: string)

  datatype Publication = Publication(subject: Subject, payload: Json)

  /** The publishing side of the message provider: what was published, in order. */
  class MessageBus {
    var published: seq<Publication>

    constructor ()
      ensures published == []
    {
      published := [];
    }

    method Publish(subject: Subject, payload: Json)
      modifies this
      ensures published == old(published) + [Publication(subject, payload)]
    {
      published := published + [Publication(subject, payload)];
    }
  }

  datatype Reply = Acked | Naked

  /** A JetStream message as far as the callbacks touch it: the replies sent for it. */
  class JsMsg {
    var replies: seq<Reply>

    constructor ()
      ensures replies == []
    {
      replies := [];
    }

    method Ack()
      modifies this
      ensures replies == old(replies) + [Acked]
    {
      replies := replies + [Acked];
    }

    method Nak()
      modifies this
      ensures replies == old(replies) + [Naked]
    {
      replies := replies + [Naked];
    }
  }

  /** The cache key the submit listener writes a result under: nested by user, then submission. */
  function ListenerResultKey(codec: JsonCodec, data: Json): (k: string)
    ensures k != Key(SubmissionNormalCache, PropText(codec, data, "submissionId"))
  {
    NestedKeyDiffers(SubmissionNormalCache, PropText(codec, data, "userId"), PropText(codec, data, "submissionId"));
    Key(Key(SubmissionNormalCache, PropText(codec, data, "userId")), PropText(codec, data, "submissionId"))
  }

  /** Listener for submission results. Calls: 0 marker get, 1 result set, 2 `updateSubmission`. */
  class SubmitCodeExecListener {
    const bus: MessageBus
    const cache: CacheStore
    const problems: P.ProblemClient
    const natsPrefix: string
    /** The string-level JSON functions, needed to turn an id property into text. */
    const codec: JsonCodec

    constructor (bus: MessageBus, cache: CacheStore, problems: P.ProblemClient, natsPrefix: string, codec: JsonCodec)
      ensures this.bus == bus && this.cache == cache && this.problems == problems && this.natsPrefix == natsPrefix
      ensures this.codec == codec
    {
      this.bus := bus;
      this.cache := cache;
      this.problems := problems;
      this.natsPrefix := natsPrefix;
      this.codec := codec;
    }

    /**
     * The callback: a marked id is acked and dropped; otherwise the data is cached as received, sent
     * to the problem service and published. Success neither marks the id nor acks; a throw naks.
     * `ok` is false when the callback itself throws: `null` data, whose id cannot be read.
     */
    method OnResult(data: Json, msg: JsMsg, fault: Fault) returns (ok: bool)
      modifies cache, problems, bus, msg
      ensures ok <==> !data.JNull?
      ensures data.JNull? ==>
        && msg.replies == old(msg.replies) && cache.entries == old(cache.entries) && cache.ttls == old(cache.ttls)
        && problems.updates == old(problems.updates) && bus.published == old(bus.published)
      ensures !data.JNull? ==>
        var id := PropText(codec, data, "submissionId");
        var marker := Key(natsPrefix, id);
        var firstTime := Reaches(fault, 1) && !Truthy(old(cache.Get(marker)));
        var done := firstTime && Reaches(fault, 3);
        && msg.replies == old(msg.replies) + (
             if !Reaches(fault, 1) then [Naked]
             else if !firstTime then [Acked]
             else if done then []
             else [Naked])
        && cache.entries == (
             if firstTime && Reaches(fault, 2) then old(cache.entries)[ListenerResultKey(codec, data) := Document(data)]
             else old(cache.entries))
        && cache.ttls == (
             if firstTime && Reaches(fault, 2) then old(cache.ttls)[ListenerResultKey(codec, data) := SubmissionDetailsExpiry]
             else old(cache.ttls))
        && problems.updates == (
             if done then old(problems.updates) + [UpdateSubmissionRequest(Prop(data, "problemId"), data)]
             else old(problems.updates))
        && bus.published == (
             if done then old(bus.published) + [Publication(SubmissionResultSubject(id), data)]
             else old(bus.published))
      ensures problems.catalogue == old(problems.catalogue) && problems.created == old(problems.created)
      ensures problems.lookups == old(problems.lookups)
    {
      if data.JNull? {
        return false;
      }
      ok := true;
      var id := PropText(codec, data, "submissionId");
      var marker := Key(natsPrefix, id);
      if Throws(fault, 0) {
        msg.Nak();
        return;
      }
      if Truthy(cache.Get(marker)) {
        msg.Ack();
        return;
      }
      var written := cache.Set(ListenerResultKey(codec, data), Document(data), SubmissionDetailsExpiry, Throws(fault, 1));
      if !written {
        msg.Nak();
        return;
      }
      var updated := problems.UpdateSubmission(UpdateSubmissionRequest(Prop(data, "problemId"), data), Throws(fault, 2));
      if !updated {
        msg.Nak();
        return;
      }
      bus.Publish(SubmissionResultSubject(id), data);
    }
  }

  /** Listener for run results. Calls: 0 marker get, 1 marker set; the marker is keyed by user id. */
  class RunCodeExecListener {
    const bus: MessageBus
    const cache: CacheStore
    const natsPrefix: string
    /** The string-level JSON functions, needed to turn an id property into text. */
    const codec: JsonCodec

    constructor (bus: MessageBus, cache: CacheStore, natsPrefix: string, codec: JsonCodec)
      ensures this.bus == bus && this.cache == cache && this.natsPrefix == natsPrefix && this.codec == codec
    {
      this.bus := bus;
      this.cache := cache;
      this.natsPrefix := natsPrefix;
      this.codec := codec;
    }

    /**
     * The callback: a marked user is acked and dropped; otherwise the data is published as received,
     * the user marked, and the message acked, the ack coming only after the marker write returns.
     * `ok` is false when the callback itself throws on `null` data.
     */
    method OnResult(data: Json, msg: JsMsg, fault: Fault) returns (ok: bool)
      modifies cache, bus, msg
      ensures ok <==> !data.JNull?
      ensures data.JNull? ==>
        msg.replies == old(msg.replies) && cache.entries == old(cache.entries) && cache.ttls == old(cache.ttls)
        && bus.published == old(bus.published)
      ensures !data.JNull? ==>
        var id := PropText(codec, data, "userId");
        var marker := Key(natsPrefix, id);
        var firstTime := Reaches(fault, 1) && !Truthy(old(cache.Get(marker)));
        && msg.replies == old(msg.replies) + [if Reaches(fault, 1) && (!firstTime || Reaches(fault, 2)) then Acked else Naked]
        && bus.published == (
             if firstTime then old(bus.published) + [Publication(RunResultSubject(id), data)]
             else old(bus.published))
        && cache.entries == (if firstTime && Reaches(fault, 2) then old(cache.entries)[marker := Marker("1")] else old(cache.entries))
        && cache.ttls == (if firstTime && Reaches(fault, 2) then old(cache.ttls)[marker := NatsIdempotencyExpiry] else old(cache.ttls))
    {
      if data.JNull? {
        return false;
      }
      ok := true;
      var id := PropText(codec, data, "userId");
      var marker := Key(natsPrefix, id);
      if Throws(fault, 0) {
        msg.Nak();
        return;
      }
      if Truthy(cache.Get(marker)) {
        msg.Ack();
        return;
      }
      bus.Publish(RunResultSubject(id), data);
      var marked := cache.Set(marker, Marker("1"), NatsIdempotencyExpiry, Throws(fault, 1));
      if !marked {
        msg.Nak();
        return;
      }
      msg.Ack();
    }
  }

  /** Listener for custom-code results. Calls: 0 marker get, 1 marker set; the marker is keyed by temporary id. */
  class CustomCodeExecListener {
    const bus: MessageBus
    const cache: CacheStore
    const natsPrefix: string
    /** The string-level JSON functions, needed to turn an id property into text. */
    const codec: JsonCodec

    constructor (bus: MessageBus, cache: CacheStore, natsPrefix: string, codec: JsonCodec)
      ensures this.bus == bus && this.cache == cache && this.natsPrefix == natsPrefix && this.codec == codec
    {
      this.bus := bus;
      this.cache := cache;
      this.natsPrefix := natsPrefix;
      this.codec := codec;
    }

    /**
     * The callback: the run listener's sequence, keyed by the temporary id.
     */
    method OnResult(data: Json, msg: JsMsg, fault: Fault) returns (ok: bool)
      modifies cache, bus, msg
      ensures ok <==> !data.JNull?
      ensures data.JNull? ==>
        msg.replies == old(msg.replies) && cache.entries == old(cache.entries) && cache.ttls == old(cache.ttls)
        && bus.published == old(bus.published)
      ensures !data.JNull? ==>
        var id := PropText(codec, data, "tempId");
        var marker := Key(natsPrefix, id);
        var firstTime := Reaches(fault, 1) && !Truthy(old(cache.Get(marker)));
        && msg.replies == old(msg.replies) + [if Reaches(fault, 1) && (!firstTime || Reaches(fault, 2)) then Acked else Naked]
        && bus.published == (
             if firstTime then old(bus.published) + [Publication(CustomResultSubject(id), data)]
             else old(bus.published))
        && cache.entries == (if firstTime && Reaches(fault, 2) then old(cache.entries)[marker := Marker("1")] else old(cache.entries))
        && cache.ttls == (if firstTime && Reaches(fault, 2) then old(cache.ttls)[marker := NatsIdempotencyExpiry] else old(cache.ttls))
    {
      if data.JNull? {
        return false;
      }
      ok := true;
      var id := PropText(codec, data, "tempId");
      var marker := Key(natsPrefix, id);
      if Throws(fault, 0) {
        msg.Nak();
        return;
      }
      if Truthy(cache.Get(marker)) {
        msg.Ack();
        return;
      }
      bus.Publish(CustomResultSubject(id), data);
      var marked := cache.Set(marker, Marker("1"), NatsIdempotencyExpiry, Throws(fault, 1));
      if !marked {
        msg.Nak();
        return;
      }
      msg.Ack();
    }
  }
}
