/** The replay streamer: the limited query result, emitted event by event with a pause per batch. */
module ReplayStream {
  import opened Prelude
  import opened Sequences
  import opened Events
  import opened EventFilters
  import opened ReplayIndex
  import opened ReplayQuery
  import opened ReplayStore

  datatype Ending = Completed | Cancelled | Panicked

  /** A positive limit cuts the result; any other limit leaves it whole. */
  function Limited<T>(events: seq<T>, limit: int): seq<T> {
    if limit > 0 && |events| > limit then events[..limit] else events
  }

  function Magnitude(b: int): nat {
    if b < 0 then -b else b
  }

  /** How often streaming pauses after `sent` of `total` events: at full batches, but not at the end. */
  function Pauses(sent: nat, total: nat, batchSize: int): nat
    requires sent <= total && batchSize != 0
  {
    if sent == 0 then 0
    else
      Pauses(sent - 1, total, batchSize) +
      (if sent % Magnitude(batchSize) == 0 && sent < total then 1 else 0)
  }

  lemma DivStep(k: nat, b: nat)
    requires b > 0
    ensures (k + 1) / b == k / b + (if (k + 1) % b == 0 then 1 else 0)
  {
    var q, r := k / b, k % b;
    assert k == q * b + r;
    if r + 1 == b {
      assert k + 1 == (q + 1) * b;
      DivUnique(k + 1, b, q + 1, 0);
    } else {
      DivUnique(k + 1, b, q, r + 1);
    }
  }

  lemma DivUnique(n: nat, b: nat, q: nat, r: nat)
    requires b > 0 && n == q * b + r && r < b
    ensures n / b == q && n % b == r
  {
    var q', r' := n / b, n % b;
    Subtract(q, q', b);
    assert n == q' * b + r';
    SmallMultiple(q - q', b);
  }

  lemma Subtract(x: int, y: int, b: int)
    ensures (x - y) * b == x * b - y * b
  {
  }

  lemma SmallMultiple(d: int, b: nat)
    requires -(b as int) < d * b < b
    ensures d == 0
  {
    if d >= 1 { AtLeast(d, b); }
    if d <= -1 { AtLeast(-d, b); }
  }

  lemma AtLeast(d: int, b: nat)
    requires d >= 1
    ensures d * b >= b
  {
  }

  /** In closed form: a complete run of `total >= 1` events pauses `(total - 1) / batchSize` times. */
  lemma {:induction false} PausesClosed(sent: nat, total: nat, batchSize: int)
    requires sent <= total && batchSize != 0
    ensures sent < total ==> Pauses(sent, total, batchSize) == sent / Magnitude(batchSize)
    ensures sent == total && total >= 1 ==> Pauses(sent, total, batchSize) == (total - 1) / Magnitude(batchSize)
  {
    if sent > 0 {
      PausesClosed(sent - 1, total, batchSize);
      DivStep(sent - 1, Magnitude(batchSize));
    }
  }

  /**
   Emits the events one by one. `cancelledBefore(i)` is the context check before event `i`, and
   `cancelWins(i)` the select between sending event `i` and cancellation. A ticker with a
   non-positive interval panics, and so does the remainder by a zero batch size.
   */
  method Stream(found: seq<Event>, limit: int, batchSize: int, rateLimitMS: int,
                cancelledBefore: nat -> bool, cancelWins: nat -> bool)
    returns (emitted: seq<Event>, pauses: nat, ending: Ending)
    ensures emitted <= Limited(found, limit) && emitted <= found && (limit > 0 ==> |emitted| <= limit)
    ensures ending.Completed? ==> |emitted| == if limit > 0 && limit < |found| then limit else |found|
    ensures rateLimitMS <= 0 ==> ending.Panicked? && emitted == []
    ensures rateLimitMS > 0 && batchSize == 0 && ending.Panicked? ==> |emitted| == 1
    ensures ending.Panicked? ==> rateLimitMS <= 0 || batchSize == 0
    ensures ending.Completed? ==> emitted == Limited(found, limit)
    ensures ending.Completed? && batchSize == 0 ==> Limited(found, limit) == []
    ensures ending.Cancelled? ==>
              |emitted| < |Limited(found, limit)| && (cancelledBefore(|emitted|) || cancelWins(|emitted|))
    ensures forall i :: 0 <= i < |emitted| ==> !cancelledBefore(i) && !cancelWins(i)
    ensures batchSize != 0 ==> pauses == Pauses(|emitted|, |Limited(found, limit)|, batchSize)
    ensures ending.Completed? && batchSize != 0 && emitted != [] ==> pauses == (|emitted| - 1) / Magnitude(batchSize)
  {
    emitted, pauses := [], 0;
    if rateLimitMS <= 0 { return emitted, pauses, Panicked; }
    var events := found;
    if limit > 0 && |events| > limit { events := events[..limit]; }
    for i := 0 to |events|
      invariant events == Limited(found, limit)
      invariant emitted == events[..i]
      invariant forall j :: 0 <= j < i ==> !cancelledBefore(j) && !cancelWins(j)
      invariant i > 0 ==> batchSize != 0
      invariant batchSize != 0 ==> pauses == Pauses(i, |events|, batchSize)
    {
      if cancelledBefore(i) { return emitted, pauses, Cancelled; }
      if cancelWins(i) { return emitted, pauses, Cancelled; }
      emitted := emitted + [events[i]];
      assert emitted == events[..i + 1];
      if batchSize == 0 { return emitted, pauses, Panicked; }
      if (i + 1) % Magnitude(batchSize) == 0 && i + 1 < |events| { pauses := pauses + 1; }
    }
    if batchSize != 0 { PausesClosed(|events|, |events|, batchSize); }
    return emitted, pauses, Completed;
  }

  /**
   A replay from the store. With a range that misses the expired leftovers and events stored in time
   order, what is emitted is a prefix, and without interruption all, of the first `limit` matching
   events in time order.
   */
  method Replay(store: InMemoryEventStore, filter: EventFilter, start: int, end: int, limit: int,
                batchSize: int, rateLimitMS: int, cancelledBefore: nat -> bool, cancelWins: nat -> bool)
    returns (r: Result<(seq<Event>, Ending), StoreError>)
    requires store.Valid() && Compiled(filter)
    ensures start > end <==> r.Err?
    ensures r.Ok? ==> forall e :: e in r.value.0 ==> start <= e.timestamp <= end && (e.priority >= 0 ==> Matches(filter, e))
    ensures r.Ok? && limit > 0 ==> |r.value.0| <= limit
    ensures r.Ok? && r.value.1.Completed? && limit <= 0 && MissesLeftovers(store.cutoff, start, end) ==>
              forall e: Event :: e.priority >= 0 ==>
                multiset(r.value.0)[e] == if start <= e.timestamp <= end && Matches(filter, e) then multiset(store.events)[e] else 0
    ensures r.Ok? && MissesLeftovers(store.cutoff, start, end) && TimeOrdered(store.events)
            && (forall e :: e in store.events ==> e.priority >= 0) ==>
              var matching := Keep(store.events, Selects(start, end, Some(MatchedBy(filter))));
              && r.value.0 <= Limited(matching, limit)
              && (r.value.1.Completed? ==> r.value.0 == Limited(matching, limit))
              && ((rateLimitMS > 0 && batchSize != 0
                   && forall i: nat :: i < |matching| ==> !cancelledBefore(i) && !cancelWins(i)) ==> r.value.1.Completed?)
              && TimeOrdered(matching)
  {
    if start > end { return Err(StartAfterEnd); }
    var found := store.QueryEvents(filter, Some((start, end)), end);
    var emitted, pauses, ending := Stream(found.value, limit, batchSize, rateLimitMS, cancelledBefore, cancelWins);
    if MissesLeftovers(store.cutoff, start, end) && TimeOrdered(store.events)
       && (forall e :: e in store.events ==> e.priority >= 0) {
      InOrder(store.events, Selects(start, end, Some(MatchedBy(filter))), found.value);
    }
    return Ok((emitted, ending));
  }

  /** On a time-ordered list the stable arrangement of what is selected is the selection itself. */
  lemma InOrder(events: seq<Event>, p: Event -> bool, found: seq<Event>)
    requires TimeOrdered(events) && StableByBucket(Keep(events, p), found)
    ensures found == Keep(events, p) && TimeOrdered(found)
  {
    KeepTimeOrdered(events, p);
    TimeOrderedIsBucketOrdered(Keep(events, p));
    StableUnique(Keep(events, p), found);
  }
}
