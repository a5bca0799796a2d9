/** What one Publish or PublishBatch call does between the circuit check and the circuit's records. */
module ProducerPublish {
  import opened Prelude
  import opened Sequences
  import opened Events
  import opened ProducerBreaker

  const MAX_RETRIES: nat := 3
  const RETRY_BACKOFF: int := 100_000_000

  /** The timestamp header carries the event's time in print; here it is the time itself. */
  datatype KafkaMessage = KafkaMessage(key: string, value: seq<bv8>, eventID: string, timestamp: int)

  function Pow2(k: nat): int {
    if k == 0 then 1 else 2 * Pow2(k - 1)
  }

  /** The message of one slot of a batch; empty slots and events that do not serialize have none. */
  function MessageOf(serialize: Event -> Option<seq<bv8>>): Option<Event> -> Option<KafkaMessage> {
    (slot: Option<Event>) =>
      if slot.Some? && serialize(slot.value).Some?
      then Some(KafkaMessage(slot.value.partitionKey, serialize(slot.value).value, slot.value.id, slot.value.timestamp))
      else None
  }

  /** The event of a slot that holds one and can be serialized. */
  function Sendable(serialize: Event -> Option<seq<bv8>>): Option<Event> -> Option<Event> {
    (slot: Option<Event>) => if slot.Some? && serialize(slot.value).Some? then slot else None
  }

  /** Key, payload and headers are those of the event. */
  predicate MadeOf(m: KafkaMessage, e: Event, serialize: Event -> Option<seq<bv8>>) {
    m.key == e.partitionKey && Some(m.value) == serialize(e) && m.eventID == e.id && m.timestamp == e.timestamp
  }

  /** The messages of a batch are those of its sendable events, one each and in order. */
  lemma {:induction false} MessagesCorrespond(events: seq<Option<Event>>, serialize: Event -> Option<seq<bv8>>)
    ensures var ms, es := Project(events, MessageOf(serialize)), Project(events, Sendable(serialize));
            |ms| == |es| && forall i :: 0 <= i < |ms| ==> MadeOf(ms[i], es[i], serialize)
  {
    if events != [] { MessagesCorrespond(events[..|events| - 1], serialize); }
  }

  /** Serializes in order and skips what cannot be serialized. */
  method SerializeEvents(events: seq<Option<Event>>, serialize: Event -> Option<seq<bv8>>)
    returns (messages: seq<KafkaMessage>)
    ensures messages == Project(events, MessageOf(serialize))
    ensures var sendable := Project(events, Sendable(serialize));
            && |messages| == |sendable|
            && forall i :: 0 <= i < |messages| ==>
                 && messages[i].key == sendable[i].partitionKey && Some(messages[i].value) == serialize(sendable[i])
                 && messages[i].eventID == sendable[i].id && messages[i].timestamp == sendable[i].timestamp
  {
    messages := [];
    for i := 0 to |events|
      invariant messages == Project(events[..i], MessageOf(serialize))
    {
      assert events[..i + 1][..i] == events[..i];
      if events[i].None? { continue; }
      var serialized := serialize(events[i].value);
      if serialized.None? { continue; }
      var event := events[i].value;
      messages := messages + [KafkaMessage(event.partitionKey, serialized.value, event.id, event.timestamp)];
    }
    assert events[..|events|] == events;
    MessagesCorrespond(events, serialize);
  }

  /**
   Writes until one write succeeds, at most four times, waiting 200, 400 and 800 ms in between. The
   outcome recorded with the circuit: a success iff the last write succeeded, a failure iff all four
   failed, nothing iff a wait was cancelled.
   */
  method PublishWithRetry(writes: nat -> bool, cancelledInWait: nat -> bool)
    returns (outcome: Outcome, attempts: nat, waits: seq<int>)
    ensures attempts <= MAX_RETRIES + 1
    ensures forall k :: 0 <= k < attempts - 1 ==> !writes(k)
    ensures forall k :: 1 <= k < attempts ==> !cancelledInWait(k)
    ensures waits <= [200_000_000, 400_000_000, 800_000_000]
    ensures outcome.Succeeded? <==> attempts > 0 && writes(attempts - 1)
    ensures outcome.Failed? ==> attempts == MAX_RETRIES + 1 && !writes(MAX_RETRIES)
    ensures outcome.Abandoned? ==> 0 < attempts <= MAX_RETRIES && cancelledInWait(attempts) && !writes(attempts - 1)
    ensures outcome.Abandoned? ==> |waits| == attempts
    ensures !outcome.Abandoned? ==> |waits| == attempts - 1
  {
    attempts, waits := 0, [];
    while attempts <= MAX_RETRIES
      invariant attempts <= MAX_RETRIES + 1
      invariant |waits| == (if attempts == 0 then 0 else attempts - 1)
      invariant waits <= [200_000_000, 400_000_000, 800_000_000]
      invariant forall k :: 0 <= k < attempts ==> !writes(k)
      invariant forall k :: 1 <= k < attempts ==> !cancelledInWait(k)
    {
      if attempts > 0 {
        assert Pow2(1) == 2 && Pow2(2) == 4 && Pow2(3) == 8;
        waits := waits + [RETRY_BACKOFF * Pow2(attempts)];
        if cancelledInWait(attempts) { return Abandoned, attempts, waits; }
      }
      if writes(attempts) { return Succeeded, attempts + 1, waits; }
      attempts := attempts + 1;
    }
    return Failed, attempts, waits;
  }

  datatype PublishError = NilEvent | EmptyBatch | CircuitOpen | SerializationFailed | NothingToPublish | Cancelled | RetriesExhausted

  /** The first of the allowed writes to succeed is `k`. */
  ghost predicate FirstWrite(writes: nat -> bool, k: nat) {
    k <= MAX_RETRIES && writes(k) && forall j: nat :: j < k ==> !writes(j)
  }

  function Report(outcome: Outcome): Result<(), PublishError> {
    match outcome
    case Succeeded => Ok(())
    case Failed => Err(RetriesExhausted)
    case Abandoned => Err(Cancelled)
  }

  /** How the writes explain the recorded outcome. */
  ghost predicate Explained(outcome: Outcome, writes: nat -> bool, cancelledInWait: nat -> bool) {
    match outcome
    case Succeeded => exists k: nat :: FirstWrite(writes, k)
    case Failed => forall k: nat :: k <= MAX_RETRIES ==> !writes(k)
    case Abandoned => exists k: nat :: 1 <= k <= MAX_RETRIES && cancelledInWait(k) && forall j: nat :: j < k ==> !writes(j)
  }

  /** One event: a serialization error counts as a failure of the circuit. */
  method Publish(event: Option<Event>, circuitOpen: bool, serialize: Event -> Option<seq<bv8>>,
                 writes: nat -> bool, cancelledInWait: nat -> bool)
    returns (r: Result<(), PublishError>, recorded: Outcome, written: seq<KafkaMessage>)
    ensures event.None? ==> r == Err(NilEvent) && recorded.Abandoned?
    ensures event.Some? && circuitOpen ==> r == Err(CircuitOpen) && recorded.Abandoned?
    ensures event.Some? && !circuitOpen && serialize(event.value).None? ==> r == Err(SerializationFailed) && recorded.Failed?
    ensures event.Some? && !circuitOpen && serialize(event.value).Some? ==>
              && Explained(recorded, writes, cancelledInWait)
              && (r.Ok? <==> recorded.Succeeded?) && (recorded.Failed? ==> r == Err(RetriesExhausted))
              && (recorded.Abandoned? ==> r == Err(Cancelled))
    ensures r.Err? ==> written == []
    ensures r.Ok? ==> event.Some? && |written| == 1 && written[0].key == event.value.partitionKey
                      && Some(written[0].value) == serialize(event.value)
                      && written[0].eventID == event.value.id && written[0].timestamp == event.value.timestamp
  {
    written := [];
    if event.None? { return Err(NilEvent), Abandoned, written; }
    if circuitOpen { return Err(CircuitOpen), Abandoned, written; }
    var serialized := serialize(event.value);
    if serialized.None? { return Err(SerializationFailed), Failed, written; }
    var e := event.value;
    var attempts, waits;
    recorded, attempts, waits := PublishWithRetry(writes, cancelledInWait);
    if recorded.Succeeded? {
      assert FirstWrite(writes, attempts - 1);
      written := [KafkaMessage(e.partitionKey, serialized.value, e.id, e.timestamp)];
    }
    return Report(recorded), recorded, written;
  }

  /** A batch: unlike a single event, one without a serializable event leaves no record. */
  method PublishBatch(events: seq<Option<Event>>, circuitOpen: bool, serialize: Event -> Option<seq<bv8>>,
                      writes: nat -> bool, cancelledInWait: nat -> bool)
    returns (r: Result<(), PublishError>, recorded: Outcome, written: seq<KafkaMessage>)
    ensures events == [] ==> r == Err(EmptyBatch) && recorded.Abandoned?
    ensures events != [] && circuitOpen ==> r == Err(CircuitOpen) && recorded.Abandoned?
    ensures events != [] && !circuitOpen && Project(events, MessageOf(serialize)) == [] ==>
              r == Err(NothingToPublish) && recorded.Abandoned?
    ensures !circuitOpen && Project(events, MessageOf(serialize)) != [] ==>
              && Explained(recorded, writes, cancelledInWait)
              && (r.Ok? <==> recorded.Succeeded?) && (recorded.Failed? ==> r == Err(RetriesExhausted))
              && (recorded.Abandoned? ==> r == Err(Cancelled))
    ensures if r.Ok? then written == Project(events, MessageOf(serialize)) && written != [] else written == []
  {
    written := [];
    if |events| == 0 { return Err(EmptyBatch), Abandoned, written; }
    if circuitOpen { return Err(CircuitOpen), Abandoned, written; }
    var messages := SerializeEvents(events, serialize);
    if |messages| == 0 { return Err(NothingToPublish), Abandoned, written; }
    var attempts, waits;
    recorded, attempts, waits := PublishWithRetry(writes, cancelledInWait);
    if recorded.Succeeded? {
      assert FirstWrite(writes, attempts - 1);
      written := messages;
    }
    return Report(recorded), recorded, written;
  }
}
