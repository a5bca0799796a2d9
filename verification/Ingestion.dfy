/**
 Ingestion: a stream of requests is cut into chunks of 100; a chunk is validated as a whole, then
 stored as a whole, then published as a whole, then acknowledged one by one. The world answers
 through an environment: identifiers, clock, and the outcome of every schema check, store, publish
 and send call, numbered in call order. Effects that happened are recorded in order.
 */
module Ingestion {
  import opened Prelude
  import opened Sequences
  import opened Events

  datatype Request = Request(
    source: string,
    eventType: string,
    subject: string,
    data: seq<bv8>,
    dataContentType: string,
    schemaURL: string,
    metadata: map<string, string>,
    correlationID: string,
    causationID: string,
    partitionKey: string,
    priority: int)

  datatype Env = Env(
    generateID: nat -> string,
    clock: nat -> int,
    schemaAccepts: (string, seq<bv8>, nat) -> bool,
    storeOk: nat -> bool,
    publishOk: nat -> bool,
    sendOk: nat -> bool)

  /** Generated identifiers are never empty. */
  ghost predicate Usable(env: Env) {
    forall n: nat :: env.generateID(n) != ""
  }

  datatype Effect = Stored(event: Event) | Published(event: Event) | Acked(id: string)

  datatype BatchError = InvalidAt(index: nat) | StoreFailedAt(index: nat) | PublishFailedAt(index: nat) | SendFailedAt(index: nat)

  /** What the entity's validation and the schema check demand of the request that is checked as number `n`. */
  predicate Valid(env: Env, r: Request, n: nat) {
    && r.source != "" && r.eventType != "" && r.data != [] && r.dataContentType != ""
    && (r.schemaURL != "" ==> env.schemaAccepts(r.schemaURL, r.data, n))
  }

  /** The event made of a request: the batch's correlation, the priority if it is a defined level. */
  function Enriched(r: Request, id: string, now: int, correlationID: string): Event {
    Event(id, r.source, r.eventType, r.subject, r.data, r.dataContentType, r.schemaURL, now, r.metadata,
          correlationID, r.causationID, r.partitionKey,
          if 0 < r.priority <= PRIORITY_CRITICAL then r.priority else PRIORITY_MEDIUM)
  }

  /** A request with every field that an event must have. */
  predicate Complete(r: Request) {
    |r.source| > 0 && |r.eventType| > 0 && |r.data| > 0 && |r.dataContentType| > 0
  }

  /** The request names no schema, or the check numbered `n` accepted its data under that schema. */
  predicate SchemaPassed(env: Env, r: Request, n: nat) {
    r.schemaURL == "" || env.schemaAccepts(r.schemaURL, r.data, n)
  }

  /** Valid requests are complete, and the schema check passed each that names a schema. */
  lemma ValidMeans(env: Env, requests: seq<Request>, first: nat)
    requires AllValid(env, requests, first)
    ensures forall i :: 0 <= i < |requests| ==> Complete(requests[i]) && SchemaPassed(env, requests[i], first + i)
  {
    forall i | 0 <= i < |requests| ensures Complete(requests[i]) && SchemaPassed(env, requests[i], first + i) {
      assert Valid(env, requests[i], first + i);
    }
  }

  // ----- The ideal effects of a list of requests -----

  const BATCH_SIZE: nat := 100

  function StoredAll(events: seq<Event>): seq<Effect> {
    seq(|events|, i requires 0 <= i < |events| => Stored(events[i]))
  }

  function PublishedAll(events: seq<Event>): seq<Effect> {
    seq(|events|, i requires 0 <= i < |events| => Published(events[i]))
  }

  function AckedAll(events: seq<Event>): seq<Effect> {
    seq(|events|, i requires 0 <= i < |events| => Acked(events[i].id))
  }

  /** How many identifiers precede the events': one, if the first request brings no correlation. */
  function FirstID(requests: seq<Request>, g: nat): nat {
    if requests != [] && requests[0].correlationID == "" then g + 1 else g
  }

  function Correlation(env: Env, requests: seq<Request>, g: nat): string {
    if requests == [] then "" else if requests[0].correlationID == "" then env.generateID(g) else requests[0].correlationID
  }

  /** The events of one batch when `g` identifiers have been generated before. */
  function Prepared(env: Env, requests: seq<Request>, g: nat): seq<Event> {
    var first, correlation := FirstID(requests, g), Correlation(env, requests, g);
    seq(|requests|, i requires 0 <= i < |requests| =>
      Enriched(requests[i], env.generateID(first + i), env.clock(first + i), correlation))
  }

  function IDsAfter(requests: seq<Request>, g: nat): nat {
    FirstID(requests, g) + |requests|
  }

  function BatchEffects(events: seq<Event>): seq<Effect> {
    StoredAll(events) + PublishedAll(events) + AckedAll(events)
  }

  function Chunk(requests: seq<Request>): seq<Request> {
    if |requests| <= BATCH_SIZE then requests else requests[..BATCH_SIZE]
  }

  /** Chunk after chunk: all stored, all published, all acknowledged. */
  function Ideal(env: Env, requests: seq<Request>, g: nat): seq<Effect>
    decreases |requests|
  {
    if requests == [] then []
    else
      var chunk := Chunk(requests);
      BatchEffects(Prepared(env, chunk, g)) + Ideal(env, requests[|chunk|..], IDsAfter(chunk, g))
  }

  function IdealIDs(requests: seq<Request>, g: nat): nat
    decreases |requests|
  {
    if requests == [] then g
    else IdealIDs(requests[|Chunk(requests)|..], IDsAfter(Chunk(requests), g))
  }

  /** One full chunk in front of any further requests. */
  lemma IdealChunk(env: Env, all: seq<Request>, chunk: seq<Request>, rest: seq<Request>, g: nat)
    requires all == chunk + rest
    requires |chunk| == BATCH_SIZE || (0 < |chunk| <= BATCH_SIZE && rest == [])
    ensures Ideal(env, all, g) == BatchEffects(Prepared(env, chunk, g)) + Ideal(env, rest, IDsAfter(chunk, g))
    ensures IdealIDs(all, g) == IdealIDs(rest, IDsAfter(chunk, g))
  {
    assert Chunk(all) == chunk;
    assert all[|chunk|..] == rest;
  }

  /** Full chunks can be split off the front. */
  lemma {:induction false} IdealSplits(env: Env, a: seq<Request>, b: seq<Request>, ab: seq<Request>, g: nat, chunks: nat)
    requires |a| == 100 * chunks && ab == a + b
    ensures Ideal(env, ab, g) == Ideal(env, a, g) + Ideal(env, b, IdealIDs(a, g))
    ensures IdealIDs(ab, g) == IdealIDs(b, IdealIDs(a, g))
    decreases chunks
  {
    if chunks == 0 {
      assert a == [] && ab == b;
    } else {
      var chunk, rest := FirstChunk(a, b, ab, chunks);
      IdealSplits(env, rest, b, rest + b, IDsAfter(chunk, g), chunks - 1);
      SplitStep(env, a, b, ab, chunk, rest, g);
    }
  }

  lemma FirstChunk(a: seq<Request>, b: seq<Request>, ab: seq<Request>, chunks: nat) returns (chunk: seq<Request>, rest: seq<Request>)
    requires |a| == 100 * chunks && chunks > 0 && ab == a + b
    ensures |chunk| == BATCH_SIZE && |rest| == 100 * (chunks - 1) && a == chunk + rest && ab == chunk + (rest + b)
  {
    chunk, rest := a[..BATCH_SIZE], a[BATCH_SIZE..];
    Regroup(a, b, BATCH_SIZE);
  }

  lemma SplitStep(env: Env, a: seq<Request>, b: seq<Request>, ab: seq<Request>, chunk: seq<Request>, rest: seq<Request>, g: nat)
    requires |chunk| == BATCH_SIZE && a == chunk + rest && ab == chunk + (rest + b)
    requires var g' := IDsAfter(chunk, g);
             && Ideal(env, rest + b, g') == Ideal(env, rest, g') + Ideal(env, b, IdealIDs(rest, g'))
             && IdealIDs(rest + b, g') == IdealIDs(b, IdealIDs(rest, g'))
    ensures Ideal(env, ab, g) == Ideal(env, a, g) + Ideal(env, b, IdealIDs(a, g))
    ensures IdealIDs(ab, g) == IdealIDs(b, IdealIDs(a, g))
  {
    var g' := IDsAfter(chunk, g);
    IdealChunk(env, a, chunk, rest, g);
    IdealChunk(env, ab, chunk, rest + b, g);
    Associate(BatchEffects(Prepared(env, chunk, g)), Ideal(env, rest, g'), Ideal(env, b, IdealIDs(rest, g')));
  }

  /** How the effects of one more batch extend the ideal effects of the full chunks before it. */
  lemma NextBatch(env: Env, whole: seq<Request>, batch: seq<Request>, g: nat, chunks: nat, before: seq<Effect>, after: seq<Effect>)
    requires |whole| == 100 * chunks && 0 < |batch| <= BATCH_SIZE
    requires var done := before + Ideal(env, whole, g);
             done <= after <= done + BatchEffects(Prepared(env, batch, IdealIDs(whole, g)))
    ensures before <= after <= before + Ideal(env, whole + batch, g)
    ensures IdealIDs(whole + batch, g) == IDsAfter(batch, IdealIDs(whole, g))
    ensures after == before + Ideal(env, whole, g) + BatchEffects(Prepared(env, batch, IdealIDs(whole, g)))
       <==> after == before + Ideal(env, whole + batch, g)
  {
    IdealSplits(env, whole, batch, whole + batch, g, chunks);
    IdealChunk(env, batch, batch, [], IdealIDs(whole, g));
    var more := BatchEffects(Prepared(env, batch, IdealIDs(whole, g)));
    assert Ideal(env, batch, IdealIDs(whole, g)) == more;
    Associate(before, Ideal(env, whole, g), more);
  }

  // ----- The gateway -----

  datatype Recv = Received(request: Request) | EndOfStream | Broken

  datatype StreamResult = Done | ReadFailed | BatchFailed(error: BatchError)

  /** The requests that arrive before the stream ends, one way or another. */
  function Arrivals(inputs: seq<Recv>): seq<Request> {
    if inputs == [] || !inputs[0].Received? then [] else [inputs[0].request] + Arrivals(inputs[1..])
  }

  /** The client closes the stream itself; otherwise the connection breaks. */
  predicate Ended(inputs: seq<Recv>) {
    inputs != [] && (inputs[0].EndOfStream? || (inputs[0].Received? && Ended(inputs[1..])))
  }

  /** The inputs of a stream that receives these requests. */
  function Receiving(requests: seq<Request>, rest: seq<Recv>): seq<Recv> {
    if requests == [] then rest else [Received(requests[0])] + Receiving(requests[1..], rest)
  }

  /** A stream's requests are those received before it ends, and it ends cleanly iff the client closes it then. */
  lemma {:induction false} ArrivalsAre(requests: seq<Request>, rest: seq<Recv>)
    requires rest == [] || !rest[0].Received?
    ensures Arrivals(Receiving(requests, rest)) == requests
    ensures Ended(Receiving(requests, rest)) <==> rest != [] && rest[0].EndOfStream?
  {
    if requests != [] {
      ArrivalsAre(requests[1..], rest);
      assert Receiving(requests, rest)[1..] == Receiving(requests[1..], rest);
    }
  }

  /** `seen` are the requests among the first `n` inputs, which do not end the stream. */
  ghost predicate Reading(inputs: seq<Recv>, n: nat, seen: seq<Request>) {
    n <= |inputs| && Arrivals(inputs) == seen + Arrivals(inputs[n..]) && Ended(inputs) == Ended(inputs[n..])
  }

  lemma ReadingStarts(inputs: seq<Recv>)
    ensures Reading(inputs, 0, [])
  {
    assert inputs[0..] == inputs;
  }

  lemma Receive(inputs: seq<Recv>, n: nat, seen: seq<Request>)
    requires n < |inputs| && inputs[n].Received? && Reading(inputs, n, seen)
    ensures Reading(inputs, n + 1, seen + [inputs[n].request])
  {
    assert inputs[n..][1..] == inputs[n + 1..];
    Associate(seen, [inputs[n].request], Arrivals(inputs[n + 1..]));
  }

  lemma ReadingEnds(inputs: seq<Recv>, n: nat, seen: seq<Request>)
    requires Reading(inputs, n, seen) && (n == |inputs| || !inputs[n].Received?)
    ensures Arrivals(inputs) == seen && Ended(inputs) == (n < |inputs| && inputs[n].EndOfStream?)
  {
  }

  /** How many calls of each kind have been made. */
  datatype Calls = Calls(checks: nat, stores: nat, publishes: nat, sends: nat)

  /** The calls after `n` more events that were all stored, published and acknowledged. */
  function After(c: Calls, n: nat): Calls {
    Calls(c.checks + n, c.stores + n, c.publishes + n, c.sends + n)
  }

  ghost predicate Succeed(ok: nat -> bool, first: nat, n: nat) {
    forall j: nat :: first <= j < first + n ==> ok(j)
  }

  ghost predicate FirstFailure(ok: nat -> bool, first: nat, i: nat) {
    Succeed(ok, first, i) && !ok(first + i)
  }

  /** The requests are valid and none of their calls, counted from the calls before them, fails. */
  ghost predicate Clean(env: Env, requests: seq<Request>, before: Calls) {
    && AllValid(env, requests, before.checks)
    && Succeed(env.storeOk, before.stores, |requests|)
    && Succeed(env.publishOk, before.publishes, |requests|)
    && Succeed(env.sendOk, before.sends, |requests|)
  }

  /**
   What a batch's error means: the named request is the first invalid one; or the batch is valid, the
   named store, publish or send call is the first of its kind to fail, and none of an earlier kind fails.
   */
  ghost predicate Cause(env: Env, e: BatchError, batch: seq<Request>, before: Calls) {
    && e.index < |batch|
    && (e.InvalidAt? ==> AllValid(env, batch[..e.index], before.checks) && !Valid(env, batch[e.index], before.checks + e.index))
    && (!e.InvalidAt? ==> AllValid(env, batch, before.checks))
    && (e.StoreFailedAt? ==> FirstFailure(env.storeOk, before.stores, e.index))
    && (e.PublishFailedAt? || e.SendFailedAt? ==> Succeed(env.storeOk, before.stores, |batch|))
    && (e.PublishFailedAt? ==> FirstFailure(env.publishOk, before.publishes, e.index))
    && (e.SendFailedAt? ==> Succeed(env.publishOk, before.publishes, |batch|))
    && (e.SendFailedAt? ==> FirstFailure(env.sendOk, before.sends, e.index))
  }

  /** Exactly what an error leaves of a batch. */
  function Left(events: seq<Event>, e: BatchError): seq<Effect> {
    var part := if e.index <= |events| then events[..e.index] else events;
    match e
    case InvalidAt(_) => []
    case StoreFailedAt(_) => StoredAll(part)
    case PublishFailedAt(_) => StoredAll(events) + PublishedAll(part)
    case SendFailedAt(_) => StoredAll(events) + PublishedAll(events) + AckedAll(part)
  }

  /** The chunk after the first `done` requests is the first to fail, with this error. */
  ghost predicate FailedChunk(env: Env, requests: seq<Request>, done: nat, e: BatchError, before: Calls) {
    && done % 100 == 0 && done < |requests| && Clean(env, requests[..done], before)
    && Cause(env, e, Chunk(requests[done..]), After(before, done))
  }

  /** The effects of a stream that failed so: all of the chunks before, and what the error leaves of this one. */
  ghost predicate FailedWith(env: Env, requests: seq<Request>, done: nat, e: BatchError, g: nat,
                             before: seq<Effect>, after: seq<Effect>)
    requires done <= |requests|
  {
    var whole, chunk := requests[..done], Chunk(requests[done..]);
    after == before + Ideal(env, whole, g) + Left(Prepared(env, chunk, IdealIDs(whole, g)), e)
  }

  /** The stream failed so at its first failing chunk, a full one unless the client had closed the stream. */
  ghost predicate Failed(env: Env, requests: seq<Request>, ended: bool, e: BatchError, calls: Calls, g: nat,
                         before: seq<Effect>, after: seq<Effect>) {
    exists done: nat ::
      && FailedChunk(env, requests, done, e, calls) && (done + 100 <= |requests| || ended)
      && FailedWith(env, requests, done, e, g, before, after)
  }

  /** A batch that fails is not clean, and its error is determined by the requests and the calls. */
  lemma CauseUnique(env: Env, e: BatchError, e': BatchError, batch: seq<Request>, before: Calls)
    requires Cause(env, e, batch, before)
    ensures !Clean(env, batch, before)
    ensures Cause(env, e', batch, before) ==> e == e'
  {
  }

  /** Part of clean requests is clean. */
  lemma CleanPart(env: Env, requests: seq<Request>, before: Calls, lo: nat, hi: nat)
    requires lo <= hi <= |requests| && Clean(env, requests, before)
    ensures Clean(env, requests[lo..hi], After(before, lo))
  {
    forall i | 0 <= i < hi - lo ensures Valid(env, requests[lo..hi][i], before.checks + lo + i) {
      assert Valid(env, requests[lo + i], before.checks + (lo + i));
    }
  }

  /** A failed chunk has its cause in a request or a call. */
  lemma FailureHasCause(env: Env, requests: seq<Request>, done: nat, e: BatchError, before: Calls)
    requires FailedChunk(env, requests, done, e, before)
    ensures !Clean(env, requests, before)
  {
    var chunk := Chunk(requests[done..]);
    CauseUnique(env, e, e, chunk, After(before, done));
    assert requests[done..done + |chunk|] == chunk;
    PartNotClean(env, requests, before, done, done + |chunk|);
  }

  lemma FailedNotClean(env: Env, requests: seq<Request>, ended: bool, e: BatchError, calls: Calls, g: nat,
                       before: seq<Effect>, after: seq<Effect>)
    requires Failed(env, requests, ended, e, calls, g, before, after)
    ensures !Clean(env, requests, calls)
  {
    var done: nat :| FailedChunk(env, requests, done, e, calls) && FailedWith(env, requests, done, e, g, before, after);
    FailureHasCause(env, requests, done, e, calls);
  }

  lemma CleanConcat(env: Env, a: seq<Request>, b: seq<Request>, before: Calls)
    requires Clean(env, a, before) && Clean(env, b, After(before, |a|))
    ensures Clean(env, a + b, before)
  {
    AllValidConcat(env, a, b, before.checks);
  }

  lemma PartNotClean(env: Env, requests: seq<Request>, before: Calls, lo: nat, hi: nat)
    requires lo <= hi <= |requests| && !Clean(env, requests[lo..hi], After(before, lo))
    ensures !Clean(env, requests, before)
  {
    if Clean(env, requests, before) { CleanPart(env, requests, before, lo, hi); }
  }

  lemma NotBefore(env: Env, requests: seq<Request>, done: nat, e: BatchError, done': nat, before: Calls)
    requires FailedChunk(env, requests, done, e, before) && done < done' <= |requests| && done' % 100 == 0
    ensures !Clean(env, requests[..done'], before)
  {
    CauseUnique(env, e, e, Chunk(requests[done..]), After(before, done));
    assert requests[..done'][done..done + 100] == Chunk(requests[done..]);
    PartNotClean(env, requests[..done'], before, done, done + 100);
  }

  /** Which chunk of a stream fails, and how, is determined. */
  lemma FailureUnique(env: Env, requests: seq<Request>, done: nat, e: BatchError, done': nat, e': BatchError, before: Calls)
    requires FailedChunk(env, requests, done, e, before) && FailedChunk(env, requests, done', e', before)
    ensures done == done' && e == e'
  {
    if done < done' {
      NotBefore(env, requests, done, e, done', before);
    } else if done' < done {
      NotBefore(env, requests, done', e', done, before);
    } else {
      CauseUnique(env, e, e', Chunk(requests[done..]), After(before, done));
    }
  }

  class Gateway {
    const env: Env
    var ids: nat
    var checks: nat
    var stores: nat
    var publishes: nat
    var sends: nat
    var trace: seq<Effect>

    ghost function Made(): Calls
      reads this
    {
      Calls(checks, stores, publishes, sends)
    }

    constructor (e: Env)
      ensures env == e && ids == 0 && trace == []
    {
      env, ids, checks, stores, publishes, sends, trace := e, 0, 0, 0, 0, 0, [];
    }

    /** Validates all requests and makes their events; the first invalid one is the error. */
    method PrepareBatchEvents(requests: seq<Request>, correlationID: string) returns (r: Result<seq<Event>, BatchError>)
      requires Usable(env)
      modifies this`ids, this`checks
      ensures r.Ok? <==> AllValid(env, requests, old(checks))
      ensures r.Ok? ==> ids == old(ids) + |requests| && checks == old(checks) + |requests| && |r.value| == |requests|
      ensures r.Ok? ==> forall i :: 0 <= i < |requests| ==>
                r.value[i] == Enriched(requests[i], env.generateID(old(ids) + i), env.clock(old(ids) + i), correlationID)
      ensures r.Ok? ==> forall i :: 0 <= i < |requests| ==>
                && Carries(r.value[i], requests[i]) && r.value[i].correlationID == correlationID
                && r.value[i].id == env.generateID(old(ids) + i) && r.value[i].timestamp == env.clock(old(ids) + i)
      ensures r.Ok? ==> forall i :: 0 <= i < |requests| ==>
                Complete(requests[i]) && SchemaPassed(env, requests[i], old(checks) + i)
      ensures r.Err? ==> r.error.index < |requests| &&
                         !(Complete(requests[r.error.index]) && SchemaPassed(env, requests[r.error.index], old(checks) + r.error.index))
      ensures r.Err? ==> r.error.InvalidAt? && r.error.index < |requests|
                         && !Valid(env, requests[r.error.index], old(checks) + r.error.index)
                         && AllValid(env, requests[..r.error.index], old(checks))
    {
      var events := [];
      for i := 0 to |requests|
        invariant ids == old(ids) + i && checks == old(checks) + i && |events| == i
        invariant AllValid(env, requests[..i], old(checks))
        invariant forall j :: 0 <= j < i ==>
                    events[j] == Enriched(requests[j], env.generateID(old(ids) + j), env.clock(old(ids) + j), correlationID)
      {
        var eventID := env.generateID(ids);
        ids := ids + 1;
        checks := checks + 1;
        if !Valid(env, requests[i], checks - 1) { return Err(InvalidAt(i)); }
        events := events + [Enriched(requests[i], eventID, env.clock(ids - 1), correlationID)];
      }
      assert requests[..|requests|] == requests;
      ValidMeans(env, requests, old(checks));
      return Ok(events);
    }

    /** Stores in order and stops at the first failure. */
    method StoreBatchEvents(events: seq<Event>) returns (r: Result<(), BatchError>)
      modifies this`stores, this`trace
      ensures r.Ok? ==> trace == old(trace) + StoredAll(events) && stores == old(stores) + |events|
      ensures r.Ok? ==> Succeed(env.storeOk, old(stores), |events|)
      ensures r.Err? ==> r.error.StoreFailedAt? && r.error.index < |events|
                         && FirstFailure(env.storeOk, old(stores), r.error.index)
                         && trace == old(trace) + StoredAll(events[..r.error.index])
    {
      for i := 0 to |events|
        invariant stores == old(stores) + i
        invariant Succeed(env.storeOk, old(stores), i)
        invariant trace == old(trace) + StoredAll(events[..i])
      {
        stores := stores + 1;
        if !env.storeOk(stores - 1) { return Err(StoreFailedAt(i)); }
        trace := trace + [Stored(events[i])];
        assert StoredAll(events[..i + 1]) == StoredAll(events[..i]) + [Stored(events[i])];
      }
      assert events[..|events|] == events;
      return Ok(());
    }

    /** Publishes in order and stops at the first failure. */
    method PublishBatchEvents(events: seq<Event>) returns (r: Result<(), BatchError>)
      modifies this`publishes, this`trace
      ensures r.Ok? ==> trace == old(trace) + PublishedAll(events) && publishes == old(publishes) + |events|
      ensures r.Ok? ==> Succeed(env.publishOk, old(publishes), |events|)
      ensures r.Err? ==> r.error.PublishFailedAt? && r.error.index < |events|
                         && FirstFailure(env.publishOk, old(publishes), r.error.index)
                         && trace == old(trace) + PublishedAll(events[..r.error.index])
    {
      for i := 0 to |events|
        invariant publishes == old(publishes) + i
        invariant Succeed(env.publishOk, old(publishes), i)
        invariant trace == old(trace) + PublishedAll(events[..i])
      {
        publishes := publishes + 1;
        if !env.publishOk(publishes - 1) { return Err(PublishFailedAt(i)); }
        trace := trace + [Published(events[i])];
        assert PublishedAll(events[..i + 1]) == PublishedAll(events[..i]) + [Published(events[i])];
      }
      assert events[..|events|] == events;
      return Ok(());
    }

    /**
     The shape of a batch's effects in every outcome: an invalid request leaves store and broker
     untouched; a store failure at `i` leaves exactly the first `i` events stored and none
     published; a publish failure at `j` leaves all stored and exactly the first `j` published.
     */
    method IngestEventBatch(requests: seq<Request>) returns (r: Result<seq<Event>, BatchError>)
      requires Usable(env)
      modifies this`ids, this`checks, this`stores, this`publishes, this`trace
      ensures r.Ok? ==>
                var events := Prepared(env, requests, old(ids));
                && r.value == events && ids == IDsAfter(requests, old(ids))
                && trace == old(trace) + StoredAll(events) + PublishedAll(events)
      ensures r.Ok? ==> checks == old(checks) + |requests| && stores == old(stores) + |requests|
                        && publishes == old(publishes) + |requests|
      ensures r.Ok? ==> AllValid(env, requests, old(checks)) && Succeed(env.storeOk, old(stores), |requests|)
                        && Succeed(env.publishOk, old(publishes), |requests|)
      ensures r.Err? ==> !r.error.SendFailedAt? && Cause(env, r.error, requests, old(Made()))
                         && trace == old(trace) + Left(Prepared(env, requests, old(ids)), r.error)
    {
      if |requests| == 0 {
        assert StoredAll([]) == [] && PublishedAll([]) == [];
        return Ok([]);
      }
      var prepared := PrepareAll(requests);
      if prepared.Err? {
        assert trace == trace + Left(Prepared(env, requests, old(ids)), prepared.error);
        return Err(prepared.error);
      }
      var carried := StoreAndPublish(prepared.value);
      if carried.Err? { return Err(carried.error); }
      return Ok(prepared.value);
    }

    /** The batch takes its correlation from its first request, or a generated one. */
    method PrepareAll(requests: seq<Request>) returns (r: Result<seq<Event>, BatchError>)
      requires Usable(env) && requests != []
      modifies this`ids, this`checks
      ensures r.Ok? ==> r.value == Prepared(env, requests, old(ids)) && ids == IDsAfter(requests, old(ids))
                        && checks == old(checks) + |requests| && AllValid(env, requests, old(checks))
      ensures r.Ok? ==> |r.value| == |requests| && forall i :: 0 <= i < |requests| ==>
                r.value[i].correlationID
                  == if requests[0].correlationID != "" then requests[0].correlationID else env.generateID(old(ids))
      ensures r.Err? ==> r.error.InvalidAt? && Cause(env, r.error, requests, old(Made()))
    {
      var correlationID := requests[0].correlationID;
      if correlationID == "" {
        correlationID := env.generateID(ids);
        ids := ids + 1;
      }
      r := PrepareBatchEvents(requests, correlationID);
    }

    /** Publishing starts only when all is stored. */
    method StoreAndPublish(events: seq<Event>) returns (r: Result<(), BatchError>)
      modifies this`stores, this`publishes, this`trace
      ensures r.Ok? ==> trace == old(trace) + StoredAll(events) + PublishedAll(events)
                        && stores == old(stores) + |events| && publishes == old(publishes) + |events|
                        && Succeed(env.storeOk, old(stores), |events|) && Succeed(env.publishOk, old(publishes), |events|)
      ensures r.Err? ==> r.error.index < |events| && (r.error.StoreFailedAt? || r.error.PublishFailedAt?)
      ensures r.Err? && r.error.StoreFailedAt? ==> FirstFailure(env.storeOk, old(stores), r.error.index)
      ensures r.Err? && r.error.PublishFailedAt? ==>
                Succeed(env.storeOk, old(stores), |events|) && FirstFailure(env.publishOk, old(publishes), r.error.index)
      ensures r.Err? ==> trace == old(trace) + Left(events, r.error)
    {
      r := StoreBatchEvents(events);
      if r.Err? { return; }
      r := PublishBatchEvents(events);
      if r.Err? { Associate(old(trace), StoredAll(events), PublishedAll(events[..r.error.index])); }
    }

    /** Ingests a batch and acknowledges its events in order; whatever happens is a prefix of the ideal. */
    method ProcessBatch(requests: seq<Request>) returns (r: Result<(), BatchError>)
      requires Usable(env)
      modifies this`ids, this`checks, this`stores, this`publishes, this`sends, this`trace
      ensures old(trace) <= trace
      ensures trace <= old(trace) + BatchEffects(Prepared(env, requests, old(ids)))
      ensures r.Ok? ==> trace == old(trace) + BatchEffects(Prepared(env, requests, old(ids)))
                        && ids == IDsAfter(requests, old(ids))
      ensures trace != old(trace) ==> AllValid(env, requests, old(checks))
      ensures r.Err? ==> trace != old(trace) + BatchEffects(Prepared(env, requests, old(ids)))
      ensures r.Ok? ==> Made() == After(old(Made()), |requests|) && Clean(env, requests, old(Made()))
      ensures r.Err? ==> Cause(env, r.error, requests, old(Made()))
                         && trace == old(trace) + Left(Prepared(env, requests, old(ids)), r.error)
    {
      ghost var ideal, before := Prepared(env, requests, ids), trace;
      var batch := IngestEventBatch(requests);
      if batch.Err? {
        LeftIsPrefix(before, ideal, batch.error);
        return Err(batch.error);
      }
      r := Acknowledge(batch.value);
      if r.Err? {
        WholeSoFar(before, ideal, r.error.index);
        LeftIsPrefix(before, ideal, r.error);
      } else {
        WholePrefix(before, ideal);
      }
    }

    /** Sends the acknowledgements in order and stops at the first failure. */
    method Acknowledge(events: seq<Event>) returns (r: Result<(), BatchError>)
      modifies this`sends, this`trace
      ensures r.Ok? ==> trace == old(trace) + AckedAll(events) && sends == old(sends) + |events|
      ensures r.Ok? ==> Succeed(env.sendOk, old(sends), |events|)
      ensures r.Err? ==> r.error.SendFailedAt? && r.error.index < |events|
                         && FirstFailure(env.sendOk, old(sends), r.error.index)
                         && trace == old(trace) + AckedAll(events[..r.error.index])
    {
      for i := 0 to |events|
        invariant sends == old(sends) + i
        invariant Succeed(env.sendOk, old(sends), i)
        invariant trace == old(trace) + AckedAll(events[..i])
      {
        sends := sends + 1;
        if !env.sendOk(sends - 1) { return Err(SendFailedAt(i)); }
        trace := trace + [Acked(events[i].id)];
        assert AckedAll(events[..i + 1]) == AckedAll(events[..i]) + [Acked(events[i].id)];
      }
      assert events[..|events|] == events;
      return Ok(());
    }

    /**
     The stream as a whole: the effects are always a prefix of the ideal effects of the requests
     received, in chunks of exactly 100 but for the last, and all of them when the stream ends
     cleanly; nothing happens for a request that was not validated.
     */
    method IngestEventStream(inputs: seq<Recv>) returns (r: StreamResult, ghost validated: seq<Request>)
      requires Usable(env)
      modifies this`ids, this`checks, this`stores, this`publishes, this`sends, this`trace
      ensures validated <= Arrivals(inputs) && AllValid(env, validated, old(checks))
      ensures old(trace) <= trace <= old(trace) + Ideal(env, validated, old(ids))
      ensures r.Done? ==> Ended(inputs) && validated == Arrivals(inputs) && trace == old(trace) + Ideal(env, validated, old(ids))
      ensures r.ReadFailed? ==> !Ended(inputs) && trace == old(trace) + Ideal(env, validated, old(ids))
                                && |validated| % 100 == 0 && |validated| <= |Arrivals(inputs)| < |validated| + 100
      ensures !r.BatchFailed? ==> Clean(env, validated, old(Made()))
      ensures r.BatchFailed? ==> Failed(env, Arrivals(inputs), Ended(inputs), r.error, old(Made()), old(ids), old(trace), trace)
      ensures Ended(inputs) && Clean(env, Arrivals(inputs), old(Made())) ==> r.Done?
    {
      ghost var g, before, calls := ids, trace, Made();
      var p, ended, batch, whole := ReceiveAll(inputs);
      if p.Err? {
        FailedNotClean(env, Arrivals(inputs), Ended(inputs), p.error, calls, g, before, trace);
        return BatchFailed(p.error), whole;
      }
      if !ended { return ReadFailed, whole; }
      r, validated := Finish(batch, whole, g, before, calls);
      if r.BatchFailed? { FailedNotClean(env, Arrivals(inputs), true, r.error, calls, g, before, trace); }
    }

    /** Processes what is left when the client has closed the stream. */
    method Finish(batch: seq<Request>, ghost whole: seq<Request>, ghost g: nat, ghost before: seq<Effect>, ghost calls: Calls)
      returns (r: StreamResult, ghost validated: seq<Request>)
      requires Usable(env) && |batch| < BATCH_SIZE && Settled(env, whole, g, before, trace, ids)
      requires Counted(env, whole, calls, Made())
      modifies this`ids, this`checks, this`stores, this`publishes, this`sends, this`trace
      ensures validated <= whole + batch && AllValid(env, validated, calls.checks)
      ensures before <= trace <= before + Ideal(env, validated, g)
      ensures r.Done? ==> validated == whole + batch && trace == before + Ideal(env, validated, g)
                          && Clean(env, validated, calls)
      ensures !r.Done? ==> r.BatchFailed? && Failed(env, whole + batch, true, r.error, calls, g, before, trace)
    {
      if |batch| == 0 {
        assert whole + batch == whole;
        return Done, whole;
      }
      var p;
      p, validated := Flush(batch, whole, g, before, calls);
      if p.Ok? { return Done, validated; }
      assert whole + batch == whole + batch + [];
      ChunkFailed(env, whole, batch, [], whole + batch, true, p.error, calls, g, before, trace);
      return BatchFailed(p.error), validated;
    }

    /** The receive loop: processes full batches and returns the requests still waiting. */
    method ReceiveAll(inputs: seq<Recv>)
      returns (r: Result<(), BatchError>, ended: bool, batch: seq<Request>, ghost whole: seq<Request>)
      requires Usable(env)
      modifies this`ids, this`checks, this`stores, this`publishes, this`sends, this`trace
      ensures r.Ok? ==> Arrivals(inputs) == whole + batch && |batch| < BATCH_SIZE && ended == Ended(inputs)
                        && Settled(env, whole, old(ids), old(trace), trace, ids) && Counted(env, whole, old(Made()), Made())
      ensures r.Err? ==> whole <= Arrivals(inputs) && AllValid(env, whole, old(checks))
                         && old(trace) <= trace <= old(trace) + Ideal(env, whole, old(ids))
      ensures r.Err? ==> Failed(env, Arrivals(inputs), Ended(inputs), r.error, old(Made()), old(ids), old(trace), trace)
    {
      ghost var g, before, calls := ids, trace, Made();
      ghost var seen: seq<Request> := [];
      whole, batch, ended, r := [], [], false, Ok(());
      var n := 0;
      ReadingStarts(inputs);
      while n < |inputs| && inputs[n].Received?
        invariant r.Ok? && seen == whole + batch && |batch| < BATCH_SIZE && Reading(inputs, n, seen)
        invariant Settled(env, whole, g, before, trace, ids) && Counted(env, whole, calls, Made())
      {
        Receive(inputs, n, seen);
        ghost var start, full := whole, batch + [inputs[n].request];
        r, batch, whole := Accept(batch, inputs[n].request, whole, seen, g, before, calls);
        seen := seen + [inputs[n].request];
        n := n + 1;
        if r.Err? {
          StreamFailed(env, inputs, n, start, full, seen, whole, r.error, calls, g, before, trace);
          return;
        }
      }
      ended := n < |inputs| && inputs[n].EndOfStream?;
      ReadingEnds(inputs, n, seen);
    }

    /** Adds a request to the batch and processes the batch when it is full. */
    method Accept(batch: seq<Request>, request: Request, ghost whole: seq<Request>, ghost seen: seq<Request>,
                  ghost g: nat, ghost before: seq<Effect>, ghost calls: Calls)
      returns (r: Result<(), BatchError>, next: seq<Request>, ghost whole': seq<Request>)
      requires Usable(env) && |batch| < BATCH_SIZE && Settled(env, whole, g, before, trace, ids)
      requires Counted(env, whole, calls, Made()) && seen == whole + batch
      modifies this`ids, this`checks, this`stores, this`publishes, this`sends, this`trace
      ensures seen + [request] == whole + (batch + [request])
      ensures r.Ok? ==> seen + [request] == whole' + next && |next| < BATCH_SIZE
                        && Settled(env, whole', g, before, trace, ids) && Counted(env, whole', calls, Made())
      ensures r.Err? ==> |batch| + 1 == BATCH_SIZE && Cause(env, r.error, batch + [request], After(calls, |whole|))
                         && trace == before + Ideal(env, whole, g) + Left(Prepared(env, batch + [request], IdealIDs(whole, g)), r.error)
      ensures r.Err? ==> whole' <= seen + [request] && AllValid(env, whole', calls.checks)
                         && before <= trace <= before + Ideal(env, whole', g)
    {
      next := batch + [request];
      whole' := whole;
      r := Ok(());
      Associate(whole, batch, [request]);
      if |next| >= BATCH_SIZE {
        var p, v := Flush(next, whole, g, before, calls);
        r, whole', next := p, v, [];
        assert r.Ok? ==> whole' + next == whole';
      }
    }

    /** One batch after full ones, against the ideal effects of the whole stream so far. */
    method Flush(batch: seq<Request>, ghost whole: seq<Request>, ghost g: nat, ghost before: seq<Effect>, ghost calls: Calls)
      returns (r: Result<(), BatchError>, ghost validated: seq<Request>)
      requires Usable(env) && 0 < |batch| <= BATCH_SIZE && Settled(env, whole, g, before, trace, ids)
      requires Counted(env, whole, calls, Made())
      modifies this`ids, this`checks, this`stores, this`publishes, this`sends, this`trace
      ensures validated == whole || validated == whole + batch
      ensures AllValid(env, validated, calls.checks)
      ensures before <= trace <= before + Ideal(env, validated, g)
      ensures r.Ok? ==> validated == whole + batch && trace == before + Ideal(env, validated, g)
      ensures r.Ok? && |batch| == BATCH_SIZE ==> Settled(env, validated, g, before, trace, ids)
      ensures r.Ok? ==> Counted(env, validated, calls, Made())
      ensures r.Err? ==> Cause(env, r.error, batch, After(calls, |whole|))
                         && trace == before + Ideal(env, whole, g) + Left(Prepared(env, batch, IdealIDs(whole, g)), r.error)
    {
      ghost var was := trace;
      r := ProcessBatch(batch);
      if r.Ok? {
        validated := whole + batch;
        WholeFlushed(env, whole, batch, g, before, trace, calls);
      } else {
        if trace == was {
          validated := whole;
        } else {
          validated := whole + batch;
          PartFlushed(env, whole, batch, g, before, trace, r.error);
          LeftMeansValid(env, whole, batch, r.error, calls);
        }
      }
    }
  }

  /** A batch that went through extends what is settled. */
  lemma WholeFlushed(env: Env, whole: seq<Request>, batch: seq<Request>, g: nat, before: seq<Effect>, after: seq<Effect>, calls: Calls)
    requires |whole| % 100 == 0 && 0 < |batch| <= BATCH_SIZE
    requires Clean(env, whole, calls) && Clean(env, batch, After(calls, |whole|))
    requires after == before + Ideal(env, whole, g) + BatchEffects(Prepared(env, batch, IdealIDs(whole, g)))
    ensures after == before + Ideal(env, whole + batch, g) && Clean(env, whole + batch, calls)
    ensures IdealIDs(whole + batch, g) == IDsAfter(batch, IdealIDs(whole, g))
    ensures |batch| == BATCH_SIZE ==> |whole + batch| % 100 == 0
  {
    NextBatch(env, whole, batch, g, |whole| / 100, before, after);
    CleanConcat(env, whole, batch, calls);
    OneMoreChunk(|whole|);
  }

  /** A batch that failed leaves a prefix of the ideal effects. */
  lemma PartFlushed(env: Env, whole: seq<Request>, batch: seq<Request>, g: nat, before: seq<Effect>, after: seq<Effect>, e: BatchError)
    requires |whole| % 100 == 0 && 0 < |batch| <= BATCH_SIZE && e.index < |batch|
    requires after == before + Ideal(env, whole, g) + Left(Prepared(env, batch, IdealIDs(whole, g)), e)
    ensures before <= after <= before + Ideal(env, whole + batch, g)
  {
    var done, events := before + Ideal(env, whole, g), Prepared(env, batch, IdealIDs(whole, g));
    LeftIsPrefix(done, events, e);
    NextBatch(env, whole, batch, g, |whole| / 100, before, after);
  }

  /** An error other than of validation means that the batch was valid. */
  lemma LeftMeansValid(env: Env, whole: seq<Request>, batch: seq<Request>, e: BatchError, calls: Calls)
    requires AllValid(env, whole, calls.checks) && Cause(env, e, batch, After(calls, |whole|)) && !e.InvalidAt?
    ensures AllValid(env, whole + batch, calls.checks)
  {
    AllValidConcat(env, whole, batch, calls.checks);
  }

  /** The requests are valid when checked one after the other from number `first` on. */
  ghost predicate AllValid(env: Env, requests: seq<Request>, first: nat) {
    forall i :: 0 <= i < |requests| ==> Valid(env, requests[i], first + i)
  }

  /** `whole` is made of full chunks, and exactly their ideal effects have happened. */
  ghost predicate Settled(env: Env, whole: seq<Request>, g: nat, before: seq<Effect>, trace: seq<Effect>, ids: nat) {
    && |whole| % 100 == 0
    && trace == before + Ideal(env, whole, g) && ids == IdealIDs(whole, g)
  }

  /** The calls made are those of `whole`, and none of them failed. */
  ghost predicate Counted(env: Env, whole: seq<Request>, before: Calls, made: Calls) {
    made == After(before, |whole|) && Clean(env, whole, before)
  }

  /** The error of a full chunk in the middle, or of the last one, is that of the stream. */
  lemma ChunkFailed(env: Env, whole: seq<Request>, chunk: seq<Request>, rest: seq<Request>, all: seq<Request>, ended: bool,
                    e: BatchError, calls: Calls, g: nat, before: seq<Effect>, after: seq<Effect>)
    requires |whole| % 100 == 0 && all == whole + chunk + rest && Clean(env, whole, calls)
    requires |chunk| == BATCH_SIZE || (0 < |chunk| < BATCH_SIZE && rest == [])
    requires Cause(env, e, chunk, After(calls, |whole|))
    requires after == before + Ideal(env, whole, g) + Left(Prepared(env, chunk, IdealIDs(whole, g)), e)
    requires |chunk| == BATCH_SIZE || ended
    ensures Failed(env, all, ended, e, calls, g, before, after)
  {
    CutOut(whole, chunk, rest, all);
    assert FailedChunk(env, all, |whole|, e, calls) && FailedWith(env, all, |whole|, e, g, before, after);
  }

  lemma CutOut(whole: seq<Request>, chunk: seq<Request>, rest: seq<Request>, all: seq<Request>)
    requires all == whole + chunk + rest && (|chunk| == BATCH_SIZE || (|chunk| < BATCH_SIZE && rest == []))
    ensures all[..|whole|] == whole && Chunk(all[|whole|..]) == chunk
  {
    assert all[|whole|..] == chunk + rest;
  }

  lemma StreamFailed(env: Env, inputs: seq<Recv>, n: nat, whole: seq<Request>, chunk: seq<Request>, seen: seq<Request>,
                     part: seq<Request>, e: BatchError, calls: Calls, g: nat, before: seq<Effect>, after: seq<Effect>)
    requires Reading(inputs, n, seen) && seen == whole + chunk && part <= seen && Clean(env, whole, calls)
    requires |whole| % 100 == 0 && |chunk| == BATCH_SIZE && Cause(env, e, chunk, After(calls, |whole|))
    requires after == before + Ideal(env, whole, g) + Left(Prepared(env, chunk, IdealIDs(whole, g)), e)
    ensures part <= Arrivals(inputs)
    ensures Failed(env, Arrivals(inputs), Ended(inputs), e, calls, g, before, after)
  {
    PrefixOfConcat(part, seen, Arrivals(inputs[n..]));
    ChunkFailed(env, whole, chunk, Arrivals(inputs[n..]), Arrivals(inputs), Ended(inputs), e, calls, g, before, after);
  }

  lemma PrefixOfConcat<T>(a: seq<T>, b: seq<T>, c: seq<T>)
    requires a <= b
    ensures a <= b + c
  {
  }

  lemma OneMoreChunk(n: nat)
    ensures n % 100 == 0 ==> (n + 100) % 100 == 0
  {
  }

  lemma AllValidConcat(env: Env, a: seq<Request>, b: seq<Request>, first: nat)
    requires AllValid(env, a, first) && AllValid(env, b, first + |a|)
    ensures AllValid(env, a + b, first)
  {
    forall i | 0 <= i < |a + b| ensures Valid(env, (a + b)[i], first + i) {
      if i >= |a| { assert Valid(env, b[i - |a|], first + |a| + (i - |a|)); }
    }
  }

  lemma StoredPrefix(events: seq<Event>, i: nat)
    requires i <= |events|
    ensures StoredAll(events[..i]) <= StoredAll(events) && PublishedAll(events[..i]) <= PublishedAll(events)
    ensures AckedAll(events[..i]) <= AckedAll(events)
  {
  }

  /** What an error leaves is a proper prefix of the batch's effects. */
  lemma LeftIsPrefix(before: seq<Effect>, events: seq<Event>, e: BatchError)
    requires e.index < |events|
    ensures before <= before + Left(events, e) <= before + BatchEffects(events)
    ensures before + Left(events, e) != before + BatchEffects(events)
  {
    StoredPrefix(events, e.index);
    assert Left(events, e) <= BatchEffects(events) && |Left(events, e)| < |BatchEffects(events)|;
  }

  lemma WholeSoFar(before: seq<Effect>, events: seq<Event>, i: nat)
    requires i < |events|
    ensures before + StoredAll(events) + PublishedAll(events) + AckedAll(events[..i])
         == before + Left(events, SendFailedAt(i))
  {
  }

  lemma WholePrefix(before: seq<Effect>, events: seq<Event>)
    ensures before + StoredAll(events) + PublishedAll(events) + AckedAll(events) == before + BatchEffects(events)
  {
  }

  // ----- What the order of effects means -----

  function StoreOf(e: Effect): Option<Event> {
    if e.Stored? then Some(e.event) else None
  }

  function PublishOf(e: Effect): Option<Event> {
    if e.Published? then Some(e.event) else None
  }

  function AckOf(e: Effect): Option<string> {
    if e.Acked? then Some(e.id) else None
  }

  function StoresIn(t: seq<Effect>): seq<Event> {
    Project(t, StoreOf)
  }

  function PublishesIn(t: seq<Effect>): seq<Event> {
    Project(t, PublishOf)
  }

  function AcksIn(t: seq<Effect>): seq<string> {
    Project(t, AckOf)
  }

  function IDs(events: seq<Event>): seq<string> {
    seq(|events|, i requires 0 <= i < |events| => events[i].id)
  }

  /** The events of a list of requests, chunk by chunk. */
  function AllPrepared(env: Env, requests: seq<Request>, g: nat): seq<Event>
    decreases |requests|
  {
    if requests == [] then []
    else Prepared(env, Chunk(requests), g) + AllPrepared(env, requests[|Chunk(requests)|..], IDsAfter(Chunk(requests), g))
  }

  lemma {:induction false} AllPreparedLength(env: Env, requests: seq<Request>, g: nat)
    ensures |AllPrepared(env, requests, g)| == |requests|
    decreases |requests|
  {
    if requests != [] {
      AllPreparedLength(env, requests[|Chunk(requests)|..], IDsAfter(Chunk(requests), g));
    }
  }

  /** The event carries everything of the request but what the batch supplies. */
  predicate Carries(e: Event, r: Request) {
    && e.source == r.source && e.eventType == r.eventType && e.subject == r.subject
    && e.data == r.data && e.dataContentType == r.dataContentType && e.schemaURL == r.schemaURL
    && e.metadata == r.metadata && e.causationID == r.causationID && e.partitionKey == r.partitionKey
    && e.priority == (if r.priority in {1, 2, 3, 4} then r.priority else 2)
  }

  ghost predicate CarryAll(events: seq<Event>, requests: seq<Request>) {
    |events| == |requests| && forall i :: 0 <= i < |events| ==> Carries(events[i], requests[i])
  }

  lemma PreparedCarries(env: Env, chunk: seq<Request>, g: nat)
    ensures CarryAll(Prepared(env, chunk, g), chunk)
  {
  }

  lemma CarryConcat(a: seq<Event>, ra: seq<Request>, b: seq<Event>, rb: seq<Request>)
    requires CarryAll(a, ra) && CarryAll(b, rb)
    ensures CarryAll(a + b, ra + rb)
  {
  }

  /** Request and event correspond by position. */
  lemma {:induction false} OneEventPerRequest(env: Env, requests: seq<Request>, g: nat)
    ensures CarryAll(AllPrepared(env, requests, g), requests)
    decreases |requests|
  {
    if requests != [] {
      var chunk := Chunk(requests);
      var rest, g' := requests[|chunk|..], IDsAfter(chunk, g);
      PreparedCarries(env, chunk, g);
      OneEventPerRequest(env, rest, g');
      CarryConcat(Prepared(env, chunk, g), chunk, AllPrepared(env, rest, g'), rest);
      assert chunk + rest == requests;
    }
  }

  lemma IDsConcat(a: seq<Event>, b: seq<Event>)
    ensures IDs(a + b) == IDs(a) + IDs(b)
  {
  }

  lemma ProjectionsConcat(a: seq<Effect>, b: seq<Effect>)
    ensures StoresIn(a + b) == StoresIn(a) + StoresIn(b)
    ensures PublishesIn(a + b) == PublishesIn(a) + PublishesIn(b)
    ensures AcksIn(a + b) == AcksIn(a) + AcksIn(b)
  {
    ProjectConcat(a, b, StoreOf);
    ProjectConcat(a, b, PublishOf);
    ProjectConcat(a, b, AckOf);
  }

  lemma {:induction false} ProjectionsOfStores(events: seq<Event>)
    ensures StoresIn(StoredAll(events)) == events && PublishesIn(StoredAll(events)) == [] && AcksIn(StoredAll(events)) == []
  {
    if events != [] {
      var front := events[..|events| - 1];
      ProjectionsOfStores(front);
      assert StoredAll(events)[..|events| - 1] == StoredAll(front);
    }
  }

  lemma {:induction false} ProjectionsOfPublishes(events: seq<Event>)
    ensures StoresIn(PublishedAll(events)) == [] && PublishesIn(PublishedAll(events)) == events && AcksIn(PublishedAll(events)) == []
  {
    if events != [] {
      var front := events[..|events| - 1];
      ProjectionsOfPublishes(front);
      assert PublishedAll(events)[..|events| - 1] == PublishedAll(front);
    }
  }

  lemma {:induction false} ProjectionsOfAcks(events: seq<Event>)
    ensures StoresIn(AckedAll(events)) == [] && PublishesIn(AckedAll(events)) == [] && AcksIn(AckedAll(events)) == IDs(events)
  {
    if events != [] {
      var front := events[..|events| - 1];
      ProjectionsOfAcks(front);
      assert AckedAll(events)[..|events| - 1] == AckedAll(front);
    }
  }

  /** Acknowledged, published and stored events form nested prefixes of `events`. */
  ghost predicate Nested(t: seq<Effect>, events: seq<Event>) {
    && StoresIn(t) <= events
    && PublishesIn(t) <= StoresIn(t)
    && AcksIn(t) <= IDs(PublishesIn(t))
  }

  /** The first `s` stored, the first `p` of them published, the first `a` of those acknowledged. */
  lemma PartOfBatch(events: seq<Event>, s: nat, p: nat, a: nat)
    requires a <= p <= s <= |events|
    ensures var t := StoredAll(events[..s]) + PublishedAll(events[..p]) + AckedAll(events[..a]);
            StoresIn(t) == events[..s] && PublishesIn(t) == events[..p] && AcksIn(t) == IDs(events[..a])
  {
    ProjectionsConcat(StoredAll(events[..s]) + PublishedAll(events[..p]), AckedAll(events[..a]));
    ProjectionsConcat(StoredAll(events[..s]), PublishedAll(events[..p]));
    ProjectionsOfStores(events[..s]);
    ProjectionsOfPublishes(events[..p]);
    ProjectionsOfAcks(events[..a]);
  }

  lemma PrefixOfBatch(events: seq<Event>, t: seq<Effect>)
    requires t <= BatchEffects(events)
    ensures Nested(t, events)
  {
    var n, all := |events|, BatchEffects(events);
    var s := if |t| <= n then |t| else n;
    var p := if |t| <= n then 0 else if |t| <= 2 * n then |t| - n else n;
    var a := if |t| <= 2 * n then 0 else |t| - 2 * n;
    assert t == all[..|t|];
    assert t == StoredAll(events[..s]) + PublishedAll(events[..p]) + AckedAll(events[..a]);
    PartOfBatch(events, s, p, a);
    assert events[..p] <= events[..s] <= events;
    assert IDs(events[..a]) <= IDs(events[..p]);
  }

  lemma WholeBatch(events: seq<Event>)
    ensures var t := BatchEffects(events);
            StoresIn(t) == events && PublishesIn(t) == events && AcksIn(t) == IDs(events)
  {
    PartOfBatch(events, |events|, |events|, |events|);
    assert events[..|events|] == events;
  }

  lemma NestedAfter(events: seq<Event>, t: seq<Effect>, more: seq<Event>)
    requires Nested(t, more)
    ensures Nested(BatchEffects(events) + t, events + more)
  {
    ProjectionsConcat(BatchEffects(events), t);
    WholeBatch(events);
    IDsConcat(events, PublishesIn(t));
  }

  /**
   Every prefix of the ideal effects, hence every state of every stream: the acknowledged requests
   are a prefix of the published ones, those of the stored ones, those of the received ones, all in
   request order.
   */
  lemma {:induction false} AcksFollowPublishesFollowStores(env: Env, requests: seq<Request>, g: nat, t: seq<Effect>)
    requires t <= Ideal(env, requests, g)
    ensures Nested(t, AllPrepared(env, requests, g))
    decreases |requests|
  {
    if requests != [] {
      var chunk := Chunk(requests);
      var events, rest, g' := Prepared(env, chunk, g), requests[|chunk|..], IDsAfter(chunk, g);
      var first := BatchEffects(events);
      if |t| <= |first| {
        assert t <= first;
        PrefixOfBatch(events, t);
      } else {
        var t' := t[|first|..];
        assert t == first + t' && t' <= Ideal(env, rest, g');
        AcksFollowPublishesFollowStores(env, rest, g', t');
        NestedAfter(events, t', AllPrepared(env, rest, g'));
      }
    }
  }

  lemma {:induction false} AcksOfIdeal(env: Env, requests: seq<Request>, g: nat)
    ensures AcksIn(Ideal(env, requests, g)) == IDs(AllPrepared(env, requests, g))
    decreases |requests|
  {
    if requests != [] {
      var chunk := Chunk(requests);
      var events, rest, g' := Prepared(env, chunk, g), requests[|chunk|..], IDsAfter(chunk, g);
      AcksOfIdeal(env, rest, g');
      ProjectionsConcat(BatchEffects(events), Ideal(env, rest, g'));
      WholeBatch(events);
      IDsConcat(events, AllPrepared(env, rest, g'));
    }
  }

  /** On a clean end there is exactly one acknowledgement per request, each for its event. */
  lemma OneAckPerRequest(env: Env, requests: seq<Request>, g: nat)
    ensures |AcksIn(Ideal(env, requests, g))| == |AllPrepared(env, requests, g)| == |requests|
    ensures forall i :: 0 <= i < |requests| ==> AcksIn(Ideal(env, requests, g))[i] == AllPrepared(env, requests, g)[i].id
  {
    AcksOfIdeal(env, requests, g);
    AllPreparedLength(env, requests, g);
  }

  /** Each effect that happens shows in exactly its own projection. */
  lemma EffectShows(e: Effect)
    ensures StoresIn([e]) == (if e.Stored? then [e.event] else [])
    ensures PublishesIn([e]) == (if e.Published? then [e.event] else [])
    ensures AcksIn([e]) == (if e.Acked? then [e.id] else [])
  {
    assert [e][..0] == [];
    assert Project([e][..0], StoreOf) == [] && Project([e][..0], PublishOf) == [] && Project([e][..0], AckOf) == [];
  }
}
