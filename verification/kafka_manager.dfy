/**
 * The Kafka manager (src/libs/kafka/kafkaManager.ts): producer and admin set-up, topic
 * creation, sending, the consumer registry, and the retry engine that parks failed
 * messages in a Redis sorted set and republishes them when they fall due.
 *
 * The Kafka producer is an append-only outbox of records, the sorted set a map from
 * envelope to score, time a `now` parameter in whole seconds and the random jitter a
 * parameter below 1000. What `zrangebyscore` answers is a parameter constrained to be
 * exactly the due part of the store in ascending score order.
 */
module KafkaManager {
  import opened Wrappers
  import opened Json
  import opened Decimal
  import opened Faults

  /** The topics the service names (their string values live in a file outside this model). */
  datatype Topic = SubmissionJobs | SubmissionResults | RunJobs | RunResults | CustomJobs | CustomResults | DlqQueue

  /** The consumer groups the service registers; they are distinct group ids. */
  datatype ConsumerGroup = CmSubNormalExec | CmRunNormalExec | CmCustomNormalExec

  type Headers = map<string, string>

  const RetryCountHeader: string := "x-retry-count"
  const MaxRetries: nat := 3
  /** The cap on the exponential part of the delay, in seconds (ten minutes). */
  const MaxBaseDelay: nat := 600
  /** `Math.floor(Math.random() * 1000)` lies below this bound. */
  const JitterBound: nat := 1000

  /** A message as a consumer receives it. */
  datatype Message = Message(key: Option<string>, value: Option<Text>, headers: Option<Headers>)

  /** A record handed to the producer; `headers == None` is a message sent without a headers field. */
  datatype Record = Record(topic: Topic, key: Option<string>, value: Option<Text>, headers: Option<Headers>)

  /** One entry of a batch: a key and a value still to be serialized (`None` is `undefined`). */
  datatype BatchItem = BatchItem(key: Option<string>, value: Option<Json>)

  /** The retry data stored in the sorted set. */
  datatype Envelope = Envelope(topic: Topic, key: Option<string>, value: Text, headers: Headers)

  /** A registered consumer: its group, the topic it reads and the dead-letter topic of its retries. */
  datatype Consumer = Consumer(group: ConsumerGroup, topic: Topic, dlqTopic: Option<Topic>)

  datatype TopicConfig = TopicConfig(numPartitions: nat, replicationFactor: nat)

  datatype ProducerConfig = ProducerConfig(idempotent: bool)

  /** `JSON.stringify(value)`: a document becomes its serialization, `undefined` stays `undefined`. */
  function StringifyValue(value: Option<Json>): Option<Text> {
    match value
    case Some(v) => Some(Stringify(v))
    case None => None
  }

  /** `key?.toString() || null`: an absent or empty key becomes `null`. */
  function KeyOf(key: Option<string>): Option<string> {
    if key == Some("") then None else key
  }

  /** What the consumer reads back from a produced record. */
  function Delivered(r: Record): Message {
    Message(r.key, r.value, r.headers)
  }

  /** `message.value ? JSON.parse(message.value.toString()) : null`; the outer `None` is the parse throwing,
      `Some(None)` the `null` payload of a message without a value. */
  function DecodePayload(msg: Message): (r: Option<Option<Json>>)
    ensures msg.value.None? ==> r == Some(None)
    ensures msg.value.Some? ==> (r.Some? <==> Parse(msg.value.value).Some?)
    ensures r.Some? && r.value.Some? ==> msg.value.Some? && Parse(msg.value.value) == r.value
  {
    match msg.value
    case None => Some(None)
    case Some(t) =>
      match Parse(t)
      case Some(d) => Some(Some(d))
      case None => None
  }

  /** Whatever `sendMessage` or `sendBatch` serializes, a consumer decodes back to the same value. */
  lemma SentValueDecodes(key: Option<string>, value: Option<Json>, headers: Option<Headers>)
    ensures DecodePayload(Message(key, StringifyValue(value), headers)) == Some(value)
  {
  }

  /** The header the retry engine reads is absent or a decimal numeral. */
  predicate RetryHeaderWellFormed(headers: Option<Headers>) {
    headers.Some? && RetryCountHeader in headers.value ==> IsDecimal(headers.value[RetryCountHeader])
  }

  /** `x-retry-count` read with `parseInt`, or 0 when the header is absent. */
  function RetryCount(headers: Option<Headers>): nat
    requires RetryHeaderWellFormed(headers)
  {
    if headers.Some? && RetryCountHeader in headers.value then ParseDecimal(headers.value[RetryCountHeader]) else 0
  }

  function Pow2(n: nat): (p: nat)
    ensures p >= 1
  {
    if n == 0 then 1 else 2 * Pow2(n - 1)
  }

  /** `Math.min(60 * 10, Math.pow(2, retryCount) * 5)`. */
  function BaseDelay(count: nat): (d: nat)
    ensures 5 <= d <= MaxBaseDelay
    ensures d <= Pow2(count) * 5 && (d == MaxBaseDelay || d == Pow2(count) * 5)
  {
    if Pow2(count) * 5 < MaxBaseDelay then Pow2(count) * 5 else MaxBaseDelay
  }

  /** `getRetryDelay`: the base delay plus the jitter, in seconds. */
  function RetryDelay(count: nat, jitter: nat): nat {
    BaseDelay(count) + jitter
  }

  /** An envelope as `scheduleRetry` stores it: its count header is a numeral between 1 and the maximum. */
  predicate Scheduled(e: Envelope) {
    && RetryCountHeader in e.headers
    && IsDecimal(e.headers[RetryCountHeader])
    && 1 <= ParseDecimal(e.headers[RetryCountHeader]) <= MaxRetries
  }

  /** Every parked envelope was stored by `scheduleRetry` and carries a due time that is not negative. */
  predicate StoreWellFormed(store: map<Envelope, int>) {
    forall e :: e in store ==> Scheduled(e) && store[e] >= 0
  }

  /** The record sent to the dead-letter topic: the consumed text serialized as a JSON string, no headers. */
  function DeadLetterRecord(dlq: Topic, msg: Message): Record {
    Record(dlq, KeyOf(msg.key), StringifyValue(if msg.value.Some? then Some(JStr(msg.value.value)) else None), Some(map[]))
  }

  /** The retry data for a message: its topic, key and text, and its headers with the count raised by one. */
  function RetryEnvelope(topic: Topic, msg: Message): Envelope
    requires RetryHeaderWellFormed(msg.headers)
  {
    Envelope(topic, KeyOf(msg.key), msg.value.GetOr(Chars("")),
      msg.headers.GetOr(map[])[RetryCountHeader := NatToString(RetryCount(msg.headers) + 1)])
  }

  /** What `scheduleRetry` decides for a failed message. */
  datatype RetryAction = DeadLetter(record: Record) | Drop | Enqueue(envelope: Envelope, score: int)

  function RetryActionFor(topic: Topic, msg: Message, dlq: Option<Topic>, now: nat, jitter: nat): RetryAction
    requires RetryHeaderWellFormed(msg.headers)
  {
    var count := RetryCount(msg.headers);
    if count >= MaxRetries then
      if dlq.Some? then DeadLetter(DeadLetterRecord(dlq.value, msg)) else Drop
    else
      Enqueue(RetryEnvelope(topic, msg), now + RetryDelay(count, jitter))
  }

  /** The outbox, the store and the outcome after carrying out a retry decision; a dead-letter send
      fails when there is no producer or the broker rejects it. */
  function AfterRetry(outbox: seq<Record>, store: map<Envelope, int>, producerReady: bool, action: RetryAction, sendFails: bool)
    : (seq<Record>, map<Envelope, int>, bool)
  {
    match action
    case DeadLetter(r) => if producerReady && !sendFails then (outbox + [r], store, true) else (outbox, store, false)
    case Drop => (outbox, store, true)
    case Enqueue(e, score) => (outbox, store[e := score], true)
  }

  /** The record the retry worker publishes for an envelope: the text it parked, as it was consumed
      (the corrected behaviour; see `RedeliveryAsWritten`). */
  function Redelivery(e: Envelope): Record {
    Record(e.topic, e.key, Some(e.value), Some(e.headers))
  }

  /** The record `sendMessage(data.topic, data.key, data.value, data.headers)` publishes as written:
      the parked text, already a JSON string, is serialized a second time. */
  function RedeliveryAsWritten(e: Envelope): Record {
    Record(e.topic, e.key, StringifyValue(Some(JStr(e.value))), Some(e.headers))
  }

  function Redeliveries(es: seq<Envelope>): (rs: seq<Record>)
    ensures |rs| == |es|
    ensures forall i :: 0 <= i < |es| ==> rs[i] == Redelivery(es[i])
  {
    seq(|es|, i requires 0 <= i < |es| => Redelivery(es[i]))
  }

  function Members(es: seq<Envelope>): set<Envelope> {
    set i | 0 <= i < |es| :: es[i]
  }

  /** `zrangebyscore(key, 0, now)`: every member scored in [0, now], each once, in ascending score order. */
  predicate RangeByScore(store: map<Envelope, int>, now: nat, due: seq<Envelope>) {
    && (forall i :: 0 <= i < |due| ==> due[i] in store && 0 <= store[due[i]] <= now)
    && (forall e :: e in store && 0 <= store[e] <= now ==> e in due)
    && (forall i, j :: 0 <= i < j < |due| ==> due[i] != due[j] && store[due[i]] <= store[due[j]])
  }

  /** How many envelopes a tick republishes: all of them, unless a send throws first. */
  function TickProgress(producerReady: bool, fault: Fault, n: nat): nat {
    if !producerReady then 0
    else match fault
      case FailsAt(k) => if k < n then k else n
      case NoFault => n
  }

  /** The records handed to the producer by `sendBatch`: in order, without headers. */
  function BatchRecords(topic: Topic, items: seq<BatchItem>): (rs: seq<Record>)
    ensures |rs| == |items|
    ensures forall i :: 0 <= i < |items| ==>
      rs[i] == Record(topic, items[i].key, StringifyValue(items[i].value), None)
  {
    seq(|items|, i requires 0 <= i < |items| => Record(topic, items[i].key, StringifyValue(items[i].value), None))
  }

  class KafkaManager {
    var producer: Option<ProducerConfig>
    var admin: bool
    var brokerTopics: map<Topic, TopicConfig>
    var consumers: map<ConsumerGroup, Consumer>
    var outbox: seq<Record>
    var retryStore: map<Envelope, int>
    var retryWorkerActive: bool
    /** The `setInterval` timers registered for the retry worker. */
    var retryIntervals: nat

    predicate Valid()
      reads this`producer, this`consumers, this`retryStore, this`retryWorkerActive, this`retryIntervals
    {
      && (producer.Some? ==> producer.value.idempotent)
      && (forall g :: g in consumers ==> consumers[g].group == g)
      && StoreWellFormed(retryStore)
      && retryIntervals == (if retryWorkerActive then 1 else 0)
    }

    /** A new manager in front of a broker that already holds the topics `existing`. */
    constructor (existing: map<Topic, TopicConfig>)
      ensures Valid()
      ensures producer == None && !admin && brokerTopics == existing && consumers == map[]
      ensures outbox == [] && retryStore == map[] && !retryWorkerActive
    {
      producer := None;
      admin := false;
      brokerTopics := existing;
      consumers := map[];
      outbox := [];
      retryStore := map[];
      retryWorkerActive := false;
      retryIntervals := 0;
    }

    /** `init`: creates the idempotent producer and the admin client, each only if it is missing. */
    method Init()
      requires Valid()
      modifies this
      ensures Valid()
      ensures producer == (if old(producer).None? then Some(ProducerConfig(true)) else old(producer))
      ensures admin
      ensures brokerTopics == old(brokerTopics) && consumers == old(consumers) && outbox == old(outbox)
      ensures retryStore == old(retryStore) && retryWorkerActive == old(retryWorkerActive) && retryIntervals == old(retryIntervals)
    {
      if producer.None? {
        producer := Some(ProducerConfig(true));
      }
      if !admin {
        admin := true;
      }
    }

    /** `createTopic`: throws (`ok == false`) without an admin client; creates the topic only if it is not listed. */
    method CreateTopic(topic: Topic, numPartitions: nat, replicationFactor: nat) returns (ok: bool)
      requires Valid()
      modifies this
      ensures Valid()
      ensures ok == admin
      ensures ok && topic !in old(brokerTopics) ==>
        brokerTopics == old(brokerTopics)[topic := TopicConfig(numPartitions, replicationFactor)]
      ensures !ok || topic in old(brokerTopics) ==> brokerTopics == old(brokerTopics)
      ensures producer == old(producer) && admin == old(admin) && consumers == old(consumers) && outbox == old(outbox)
      ensures retryStore == old(retryStore) && retryWorkerActive == old(retryWorkerActive) && retryIntervals == old(retryIntervals)
    {
      if !admin {
        return false;
      }
      if topic !in brokerTopics {
        brokerTopics := brokerTopics[topic := TopicConfig(numPartitions, replicationFactor)];
      }
      return true;
    }

    /** `producer.send`: throws without a producer or when the broker rejects the send. */
    method Produce(records: seq<Record>, fails: bool) returns (ok: bool)
      modifies this`outbox
      ensures ok == (producer.Some? && !fails)
      ensures outbox == if ok then old(outbox) + records else old(outbox)
    {
      ok := producer.Some? && !fails;
      if ok {
        outbox := outbox + records;
      }
    }

    /** `sendMessage`: one record with the serialized value and the headers, `{}` when none are given. */
    method SendMessage(topic: Topic, key: Option<string>, value: Option<Json>, headers: Option<Headers>, fails: bool)
      returns (ok: bool)
      requires Valid()
      modifies this
      ensures Valid()
      ensures ok == (producer.Some? && !fails)
      ensures outbox == if ok then old(outbox) + [Record(topic, key, StringifyValue(value), Some(headers.GetOr(map[])))]
        else old(outbox)
      ensures producer == old(producer) && admin == old(admin) && brokerTopics == old(brokerTopics) && consumers == old(consumers)
      ensures retryStore == old(retryStore) && retryWorkerActive == old(retryWorkerActive) && retryIntervals == old(retryIntervals)
    {
      ok := Produce([Record(topic, key, StringifyValue(value), Some(headers.GetOr(map[])))], fails);
    }

    /** `sendBatch`: every item, in order, in one send and without headers. */
    method SendBatch(topic: Topic, items: seq<BatchItem>, fails: bool) returns (ok: bool)
      requires Valid()
      modifies this
      ensures Valid()
      ensures ok == (producer.Some? && !fails)
      ensures outbox == if ok then old(outbox) + BatchRecords(topic, items) else old(outbox)
      ensures producer == old(producer) && admin == old(admin) && brokerTopics == old(brokerTopics) && consumers == old(consumers)
      ensures retryStore == old(retryStore) && retryWorkerActive == old(retryWorkerActive) && retryIntervals == old(retryIntervals)
    {
      ok := Produce(BatchRecords(topic, items), fails);
    }

    /** `createConsumer`: a group already registered gets its existing consumer back and nothing is
        subscribed; otherwise the group is registered with the topic and dead-letter topic given. */
    method CreateConsumer(group: ConsumerGroup, topic: Topic, dlqTopic: Option<Topic>) returns (c: Consumer)
      requires Valid()
      modifies this
      ensures Valid()
      ensures group in old(consumers) ==> c == old(consumers)[group] && consumers == old(consumers)
      ensures group !in old(consumers) ==>
        c == Consumer(group, topic, dlqTopic) && consumers == old(consumers)[group := c]
      ensures c.group == group && consumers[group] == c
      ensures producer == old(producer) && admin == old(admin) && brokerTopics == old(brokerTopics) && outbox == old(outbox)
      ensures retryStore == old(retryStore) && retryWorkerActive == old(retryWorkerActive) && retryIntervals == old(retryIntervals)
    {
      if group in consumers {
        return consumers[group];
      }
      c := Consumer(group, topic, dlqTopic);
      consumers := consumers[group := c];
    }

    /** `scheduleRetry`: past the maximum the message goes to the dead-letter topic (or is dropped when
        there is none); otherwise one envelope is stored, due after the retry delay. */
    method ScheduleRetry(topic: Topic, msg: Message, dlqTopic: Option<Topic>, now: nat, jitter: nat, sendFails: bool)
      returns (ok: bool)
      requires Valid() && RetryHeaderWellFormed(msg.headers) && jitter < JitterBound
      modifies this
      ensures Valid()
      ensures (outbox, retryStore, ok)
        == AfterRetry(old(outbox), old(retryStore), old(producer).Some?, RetryActionFor(topic, msg, dlqTopic, now, jitter), sendFails)
      ensures producer == old(producer) && admin == old(admin) && brokerTopics == old(brokerTopics) && consumers == old(consumers)
      ensures retryWorkerActive == old(retryWorkerActive) && retryIntervals == old(retryIntervals)
    {
      var count := RetryCount(msg.headers);
      if count >= MaxRetries {
        if dlqTopic.Some? {
          var value := if msg.value.Some? then Some(JStr(msg.value.value)) else None;
          ok := SendMessage(dlqTopic.value, KeyOf(msg.key), value, None, sendFails);
        } else {
          ok := true;
        }
        return;
      }
      var envelope := RetryEnvelope(topic, msg);
      EnvelopeIsScheduled(topic, msg);
      retryStore := retryStore[envelope := now + RetryDelay(count, jitter)];
      ok := true;
    }

    /** The `eachMessage` wrapper of a registered consumer, given whether the handler returned normally:
        a payload that does not parse and a handler that throws take the same path, one `scheduleRetry`. */
    method Deliver(group: ConsumerGroup, msg: Message, handled: bool, now: nat, jitter: nat, sendFails: bool)
      returns (ok: bool)
      requires Valid() && group in consumers && RetryHeaderWellFormed(msg.headers) && jitter < JitterBound
      modifies this
      ensures Valid()
      ensures DecodePayload(msg).Some? && handled ==>
        ok && outbox == old(outbox) && retryStore == old(retryStore)
      ensures DecodePayload(msg).None? || !handled ==>
        (outbox, retryStore, ok) == AfterRetry(old(outbox), old(retryStore), old(producer).Some?,
          RetryActionFor(old(consumers)[group].topic, msg, old(consumers)[group].dlqTopic, now, jitter), sendFails)
      ensures producer == old(producer) && admin == old(admin) && brokerTopics == old(brokerTopics) && consumers == old(consumers)
      ensures retryWorkerActive == old(retryWorkerActive) && retryIntervals == old(retryIntervals)
    {
      if DecodePayload(msg).Some? && handled {
        return true;
      }
      var c := consumers[group];
      ok := ScheduleRetry(c.topic, msg, c.dlqTopic, now, jitter, sendFails);
    }

    /** `startRetryWorker`: the interval is registered only the first time. */
    method StartRetryWorker()
      requires Valid()
      modifies this
      ensures Valid()
      ensures retryWorkerActive && retryIntervals == 1
      ensures producer == old(producer) && admin == old(admin) && brokerTopics == old(brokerTopics) && consumers == old(consumers)
      ensures outbox == old(outbox) && retryStore == old(retryStore)
    {
      if retryWorkerActive {
        return;
      }
      retryWorkerActive := true;
      retryIntervals := retryIntervals + 1;
    }

    /** `zrem` on the retry queue: the envelope leaves the store, whether or not it was there. */
    method Unpark(e: Envelope)
      modifies this`retryStore
      ensures retryStore == old(retryStore) - {e}
    {
      retryStore := retryStore - {e};
    }

    /** One tick of the retry worker: every due envelope, in ascending score order, is republished and
        only then removed; the first send that throws ends the tick and leaves it and all later ones parked. */
    method RetryTick(now: nat, due: seq<Envelope>, fault: Fault) returns (sent: nat)
      requires Valid() && retryWorkerActive && RangeByScore(retryStore, now, due)
      modifies this`outbox, this`retryStore
      ensures Valid()
      ensures sent == TickProgress(old(producer).Some?, fault, |due|)
      ensures outbox == old(outbox) + Redeliveries(due[..sent])
      ensures retryStore == old(retryStore) - Members(due[..sent])
      ensures forall i :: sent <= i < |due| ==> due[i] in retryStore && retryStore[due[i]] == old(retryStore)[due[i]]
    {
      sent := Republish(due, fault);
      NotYetSentStayParked(old(retryStore), now, due, sent);
      RemovalKeepsStoreWellFormed(old(retryStore), Members(due[..sent]));
    }

    /** The loop of a tick over the envelopes `zrangebyscore` returned: send, then `zrem`, one at a time. */
    method Republish(due: seq<Envelope>, fault: Fault) returns (sent: nat)
      modifies this`outbox, this`retryStore
      ensures sent == TickProgress(old(producer).Some?, fault, |due|)
      ensures outbox == old(outbox) + Redeliveries(due[..sent])
      ensures retryStore == old(retryStore) - Members(due[..sent])
    {
      sent := 0;
      while sent < |due|
        invariant sent <= |due| && sent <= TickProgress(producer.Some?, fault, |due|)
        invariant outbox == old(outbox) + Redeliveries(due[..sent])
        invariant retryStore == old(retryStore) - Members(due[..sent])
      {
        var envelope := due[sent];
        var ok := Produce([Redelivery(envelope)], Throws(fault, sent));
        if !ok {
          break;
        }
        TickStep(due, sent);
        Unpark(envelope);
        sent := sent + 1;
      }
    }
  }

  /** A stored envelope always satisfies the store invariant. */
  lemma EnvelopeIsScheduled(topic: Topic, msg: Message)
    requires RetryHeaderWellFormed(msg.headers) && RetryCount(msg.headers) < MaxRetries
    ensures Scheduled(RetryEnvelope(topic, msg))
    ensures ParseDecimal(RetryEnvelope(topic, msg).headers[RetryCountHeader]) == RetryCount(msg.headers) + 1
  {
    ParseNatToString(RetryCount(msg.headers) + 1);
  }

  /** One more republished envelope extends the records sent and the members removed by one. */
  lemma TickStep(due: seq<Envelope>, sent: nat)
    requires sent < |due|
    ensures Redeliveries(due[..sent + 1]) == Redeliveries(due[..sent]) + [Redelivery(due[sent])]
    ensures Members(due[..sent + 1]) == Members(due[..sent]) + {due[sent]}
  {
    assert due[..sent + 1] == due[..sent] + [due[sent]];
  }

  /** Taking members out of a well-formed store leaves it well formed. */
  lemma RemovalKeepsStoreWellFormed(store: map<Envelope, int>, gone: set<Envelope>)
    requires StoreWellFormed(store)
    ensures StoreWellFormed(store - gone)
  {
  }

  /** The due envelopes not yet republished are still in the store, with their scores. */
  lemma NotYetSentStayParked(store: map<Envelope, int>, now: nat, due: seq<Envelope>, sent: nat)
    requires RangeByScore(store, now, due) && sent <= |due|
    ensures forall i :: sent <= i < |due| ==>
      due[i] in store - Members(due[..sent]) && (store - Members(due[..sent]))[due[i]] == store[due[i]]
  {
  }

  /** The numeral written into an envelope reads back as the count plus one. */
  lemma EnvelopeCount(topic: Topic, msg: Message)
    requires RetryHeaderWellFormed(msg.headers)
    ensures RetryHeaderWellFormed(Some(RetryEnvelope(topic, msg).headers))
    ensures RetryCount(Some(RetryEnvelope(topic, msg).headers)) == RetryCount(msg.headers) + 1
  {
    ParseNatToString(RetryCount(msg.headers) + 1);
  }

  /** The envelope keeps the message's topic, key (`null` for an empty one), text (empty when there is
      none) and every header other than the count. */
  lemma EnvelopeKeepsMessage(topic: Topic, msg: Message)
    requires RetryHeaderWellFormed(msg.headers)
    ensures var e := RetryEnvelope(topic, msg);
      && e.topic == topic
      && e.key == (if msg.key == Some("") then None else msg.key)
      && e.value == (if msg.value.Some? then msg.value.value else Chars(""))
      && (forall h :: h != RetryCountHeader ==>
            (h in e.headers <==> msg.headers.Some? && h in msg.headers.value)
            && (h in e.headers ==> e.headers[h] == msg.headers.value[h]))
  {
  }

  lemma {:induction false} Pow2Monotone(a: nat, b: nat)
    requires a <= b
    ensures Pow2(a) <= Pow2(b)
    decreases b
  {
    if a < b {
      Pow2Monotone(a, b - 1);
    }
  }

  /** The base delay never falls as the count grows and never exceeds ten minutes. */
  lemma BaseDelayMonotoneAndCapped(a: nat, b: nat)
    requires a <= b
    ensures 5 <= BaseDelay(a) <= BaseDelay(b) <= MaxBaseDelay
  {
    Pow2Monotone(a, b);
  }

  /** The counts a retry can be scheduled at give 5, 10 and 20 seconds, before jitter. */
  lemma BaseDelayReachable()
    ensures BaseDelay(0) == 5 && BaseDelay(1) == 10 && BaseDelay(2) == 20
  {
    assert Pow2(2) == 4;
  }

  /** Each failed message gets exactly one of the three outcomes, and an enqueued one is due
      between 5 and 20 seconds plus the jitter from now. */
  lemma RetryActionCases(topic: Topic, msg: Message, dlq: Option<Topic>, now: nat, jitter: nat)
    requires RetryHeaderWellFormed(msg.headers) && jitter < JitterBound
    ensures var a := RetryActionFor(topic, msg, dlq, now, jitter);
      && (a.Enqueue? <==> RetryCount(msg.headers) < MaxRetries)
      && (a.DeadLetter? <==> RetryCount(msg.headers) >= MaxRetries && dlq.Some?)
      && (a.Drop? <==> RetryCount(msg.headers) >= MaxRetries && dlq.None?)
      && (a.DeadLetter? ==> a.record.topic == dlq.value && a.record.headers == Some(map[]))
      && (a.Enqueue? ==> a.envelope == RetryEnvelope(topic, msg))
      && (a.Enqueue? ==> now + 5 <= a.score < now + 20 + JitterBound)
  {
    var count := RetryCount(msg.headers);
    if count < MaxRetries {
      BaseDelayMonotoneAndCapped(count, 2);
      BaseDelayReachable();
    }
  }

  /** Carrying out a decision changes exactly one thing: one record more in the outbox, one entry set in
      the store, or nothing (a drop, or a dead-letter send that threw). */
  lemma AfterRetryChangesOneThing(outbox: seq<Record>, store: map<Envelope, int>, producerReady: bool, action: RetryAction, sendFails: bool)
    ensures var (outbox', store', ok) := AfterRetry(outbox, store, producerReady, action, sendFails);
      && (action.DeadLetter? ==> store' == store && outbox' == (if ok then outbox + [action.record] else outbox))
      && (action.DeadLetter? ==> (ok <==> producerReady && !sendFails))
      && (action.Enqueue? ==> ok && outbox' == outbox && store' == store[action.envelope := action.score])
      && (action.Drop? ==> ok && outbox' == outbox && store' == store)
  {
  }

  /** The message a consumer receives when `msg`, consumed from `topic`, is parked and republished once:
      the same text, with the count one higher. */
  function Retried(topic: Topic, msg: Message): (m: Message)
    requires RetryHeaderWellFormed(msg.headers)
    ensures RetryHeaderWellFormed(m.headers)
    ensures RetryCount(m.headers) == RetryCount(msg.headers) + 1
    ensures msg.value.Some? ==> m.value == msg.value
  {
    EnvelopeCount(topic, msg);
    Delivered(Redelivery(RetryEnvelope(topic, msg)))
  }

  /** The message a consumer receives when `msg` is parked and republished once by the worker as written:
      the same key and headers as the corrected republish, but the value is the consumed text wrapped in
      a JSON string. */
  function RetriedAsWritten(topic: Topic, msg: Message): (m: Message)
    requires RetryHeaderWellFormed(msg.headers)
    ensures m.key == Retried(topic, msg).key && m.headers == Retried(topic, msg).headers
    ensures RetryCount(m.headers) == RetryCount(msg.headers) + 1
    ensures msg.value.Some? ==> DecodePayload(m) == Some(Some(JStr(msg.value.value)))
  {
    Delivered(RedeliveryAsWritten(RetryEnvelope(topic, msg)))
  }

  /** The message a consumer receives after `k` retries of `msg` on `topic`: the count has risen by
      `k` and the consumed text is unchanged. */
  function Attempt(topic: Topic, msg: Message, k: nat): (m: Message)
    requires RetryHeaderWellFormed(msg.headers)
    ensures RetryHeaderWellFormed(m.headers)
    ensures RetryCount(m.headers) == RetryCount(msg.headers) + k
    ensures msg.value.Some? ==> m.value == msg.value
    decreases k
  {
    if k == 0 then msg else Retried(topic, Attempt(topic, msg, k - 1))
  }

  /** A fresh message is retried three times and then goes to the dead-letter topic (or is dropped). */
  lemma ThreeRetriesThenDeadLetter(topic: Topic, msg: Message, dlq: Option<Topic>, now: nat, jitter: nat)
    requires RetryHeaderWellFormed(msg.headers) && RetryCount(msg.headers) == 0
    ensures forall k :: 0 <= k < MaxRetries ==> RetryActionFor(topic, Attempt(topic, msg, k), dlq, now, jitter).Enqueue?
    ensures dlq.Some? ==>
      RetryActionFor(topic, Attempt(topic, msg, MaxRetries), dlq, now, jitter)
        == DeadLetter(DeadLetterRecord(dlq.value, Attempt(topic, msg, MaxRetries)))
    ensures dlq.None? ==> RetryActionFor(topic, Attempt(topic, msg, MaxRetries), dlq, now, jitter) == Drop
  {
  }

  /** Retries republish the consumed text unchanged: every attempt decodes to the original payload. */
  lemma AttemptKeepsPayload(topic: Topic, msg: Message, k: nat)
    requires RetryHeaderWellFormed(msg.headers) && msg.value.Some?
    ensures DecodePayload(Attempt(topic, msg, k)) == DecodePayload(msg)
  {
  }

  /** As written, the retry worker hands the consumer a JSON string holding the original text instead
      of the original document. */
  lemma RedeliveryAsWrittenDoubleEncodes(topic: Topic, msg: Message, doc: Json)
    requires RetryHeaderWellFormed(msg.headers) && msg.value == Some(Serialized(doc))
    ensures DecodePayload(msg) == Some(Some(doc))
    ensures DecodePayload(Delivered(RedeliveryAsWritten(RetryEnvelope(topic, msg)))) == Some(Some(JStr(Serialized(doc))))
    ensures DecodePayload(Delivered(RedeliveryAsWritten(RetryEnvelope(topic, msg)))) != DecodePayload(msg)
  {
    assert doc < Serialized(doc) < JStr(Serialized(doc));
  }

  /** The corrected republish gives the consumer back the payload it failed on. */
  lemma RedeliveryPreservesPayload(topic: Topic, msg: Message)
    requires RetryHeaderWellFormed(msg.headers) && msg.value.Some?
    ensures DecodePayload(Delivered(Redelivery(RetryEnvelope(topic, msg)))) == DecodePayload(msg)
  {
  }

  /** The dead-letter topic receives the consumed text as a JSON string, keyed like the message. */
  lemma DeadLetterCarriesText(dlq: Topic, msg: Message)
    requires msg.value.Some?
    ensures DecodePayload(Delivered(DeadLetterRecord(dlq, msg))) == Some(Some(JStr(msg.value.value)))
    ensures DeadLetterRecord(dlq, msg).key == KeyOf(msg.key)
  {
  }
}
