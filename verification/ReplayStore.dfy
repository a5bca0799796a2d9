/** The in-memory event store: an object whose list and index are updated in place. */
module ReplayStore {
  import opened Prelude
  import opened Sequences
  import opened GoTime
  import opened Events
  import opened EventFilters
  import opened ReplayIndex
  import opened ReplayQuery
  import opened ReplayPaging

  datatype StoreError = NilEvent | StartAfterEnd | BadPageSize | BadPageNumber | BadLimit | SlicePanic

  /** Go's zero `time.Time`, the first instant of year 1, in nanoseconds from the Unix epoch. */
  const ZERO_TIME: int := -62_135_596_800 * SECOND

  class InMemoryEventStore {
    var events: seq<Event>
    var timeBuckets: map<int, seq<Event>>
    var lastCleanup: int
    const maxRetention: int
    ghost var cutoff: Option<int>
    ghost var clock: int

    ghost function State(): StoreState
      reads this
    {
      StoreState(events, timeBuckets, lastCleanup)
    }

    ghost predicate Valid()
      reads this
    {
      && Consistent(Tracked(State(), cutoff))
      && (cutoff.Some? ==> cutoff.value <= clock - maxRetention)
    }

    constructor (retention: int, now: int)
      ensures Valid() && State() == Init(now) && maxRetention == retention && clock == now && cutoff == None
    {
      events, timeBuckets, lastCleanup := [], map[], now;
      maxRetention, cutoff, clock := retention, None, now;
    }

    /** `checked`, `cut` and `finished` are the clock readings the call makes, in order. */
    method Store(event: Option<Event>, checked: int, cut: int, finished: int) returns (r: Result<(), StoreError>)
      requires Valid() && clock <= checked <= cut <= finished
      modifies this
      ensures Valid() && clock == finished
      ensures event.None? ==> r == Err(NilEvent) && State() == old(State()) && cutoff == old(cutoff)
      ensures event.Some? ==>
                var op := StoreEvent(event.value, checked, cut, finished);
                r == Ok(()) && Tracked(State(), cutoff) == Step(old(Tracked(State(), cutoff)), op, maxRetention)
      ensures event.Some? ==>
                var due := checked - old(lastCleanup) > 60 * SECOND;
                && lastCleanup == (if due then finished else old(lastCleanup))
                && forall e :: multiset(events)[e]
                     == (if due && e.timestamp <= cut - maxRetention then 0
                         else old(multiset(events))[e] + (if e == event.value then 1 else 0))
    {
      clock := finished;
      if event.None? { return Err(NilEvent); }
      forall e {
        StoreRetains(State(), StoreEvent(event.value, checked, cut, finished), maxRetention, e);
      }
      StepKeeps(Tracked(State(), cutoff), StoreEvent(event.value, checked, cut, finished), maxRetention);
      Add(event.value, checked, cut, finished);
      return Ok(());
    }

    method Add(e: Event, checked: int, cut: int, finished: int)
      modifies this`events, this`timeBuckets, this`lastCleanup, this`cutoff
      ensures Tracked(State(), cutoff)
           == Step(old(Tracked(State(), cutoff)), StoreEvent(e, checked, cut, finished), maxRetention)
    {
      events := events + [e];
      var bucket := MinuteBucket(e.timestamp);
      timeBuckets := timeBuckets[bucket := (if bucket in timeBuckets then timeBuckets[bucket] else []) + [e]];
      if checked - lastCleanup > MINUTE {
        Cleanup(cut);
        cutoff := Some(cut - maxRetention);
        lastCleanup := finished;
      }
    }

    /** Filters the list event by event and the index key by key, each in its own loop. */
    method Cleanup(now: int)
      modifies this`events, this`timeBuckets
      ensures State() == Cleaned(old(State()), now - maxRetention)
    {
      var cutoffTime := now - maxRetention;
      var newEvents := [];
      for i := 0 to |events|
        invariant events == old(events) && timeBuckets == old(timeBuckets)
        invariant newEvents == Keep(events[..i], NewerThan(cutoffTime))
      {
        KeepPush(events, i, NewerThan(cutoffTime));
        if events[i].timestamp > cutoffTime { newEvents := newEvents + [events[i]]; }
      }
      assert events[..|events|] == events;
      events := newEvents;
      var cutoffBucket := MinuteBucket(cutoffTime);
      var todo := timeBuckets.Keys;
      while todo != {}
        invariant events == newEvents && todo <= old(timeBuckets).Keys
        invariant timeBuckets == map b | b in old(timeBuckets) && (b in todo || b >= cutoffBucket) :: old(timeBuckets)[b]
      {
        var b := Pick(todo);
        if b < cutoffBucket { timeBuckets := timeBuckets - {b}; }
        todo := todo - {b};
      }
    }

    method Clear()
      requires Valid()
      modifies this
      ensures Valid() && clock == old(clock)
      ensures Tracked(State(), cutoff) == Step(old(Tracked(State(), cutoff)), ReplayIndex.Clear, maxRetention)
      ensures events == [] && timeBuckets == map[] && lastCleanup == old(lastCleanup)
    {
      StepKeeps(Tracked(State(), cutoff), ReplayIndex.Clear, maxRetention);
      events, timeBuckets, cutoff := [], map[], None;
    }

    /** Scans the keys of the range in order; exact when the range misses the leftovers. */
    method QueryByTime(start: int, end: int, filter: Option<Event -> bool>) returns (r: Result<seq<Event>, StoreError>)
      requires Valid()
      ensures start > end ==> r == Err(StartAfterEnd)
      ensures start <= end ==> r == Ok(Query(State(), start, end, filter))
      ensures start <= end && MissesLeftovers(cutoff, start, end) ==>
                && r.Ok? && StableByBucket(LinearScan(State(), start, end, filter), r.value)
                && (TimeOrdered(events) ==> r.value == LinearScan(State(), start, end, filter))
      ensures r.Ok? ==> forall e :: e in r.value ==> start <= e.timestamp <= end && (filter.Some? ==> filter.value(e))
      ensures r.Ok? && MissesLeftovers(cutoff, start, end) ==>
                forall e :: multiset(r.value)[e]
                  == if start <= e.timestamp <= end && (filter.Some? ==> filter.value(e)) then multiset(events)[e] else 0
    {
      if start > end { return Err(StartAfterEnd); }
      ghost var p := Selects(start, end, filter);
      var result := [];
      var bucket, endBucket := MinuteBucket(start), MinuteBucket(end);
      MinuteBucketMonotone(start, end);
      while bucket <= endBucket
        invariant bucket <= endBucket + 1
        invariant result == IndexScan(State(), MinuteBucket(start), bucket - 1, p)
      {
        if bucket in timeBuckets {
          result := AppendSelected(result, timeBuckets[bucket], start, end, filter);
        }
        bucket := bucket + 1;
      }
      Answers(start, end, filter);
      return Ok(result);
    }

    /** What the scan means for the caller. */
    lemma Answers(start: int, end: int, filter: Option<Event -> bool>)
      requires Valid() && start <= end
      ensures var found := Query(State(), start, end, filter);
              && (forall e :: e in found ==> start <= e.timestamp <= end && (filter.Some? ==> filter.value(e)))
              && (MissesLeftovers(cutoff, start, end) ==>
                    && StableByBucket(LinearScan(State(), start, end, filter), found)
                    && (TimeOrdered(events) ==> found == LinearScan(State(), start, end, filter))
                    && forall e :: multiset(found)[e]
                         == if start <= e.timestamp <= end && (filter.Some? ==> filter.value(e)) then multiset(events)[e] else 0)
    {
      forall e | e in Query(State(), start, end, filter) ensures Wanted(start, end, filter, e) {
        OnlyWanted(State(), start, end, filter, e);
      }
      if MissesLeftovers(cutoff, start, end) {
        QueryRefinesScan(Tracked(State(), cutoff), start, end, filter);
        forall e
          ensures multiset(Query(State(), start, end, filter))[e]
               == if Wanted(start, end, filter, e) then multiset(events)[e] else 0
        {
          ExactlyWanted(Tracked(State(), cutoff), start, end, filter, e);
        }
      }
    }

    /** The inner loop: appends the entries in range that pass the filter. */
    static method AppendSelected(found: seq<Event>, entries: seq<Event>, start: int, end: int, filter: Option<Event -> bool>)
      returns (result: seq<Event>)
      ensures result == found + Keep(entries, Selects(start, end, filter))
    {
      ghost var p := Selects(start, end, filter);
      result := found;
      for i := 0 to |entries|
        invariant result == found + Keep(entries[..i], p)
      {
        KeepPush(entries, i, p);
        var event := entries[i];
        if event.timestamp < start || event.timestamp > end { continue; }
        if filter.Some? && !filter.value(event) { continue; }
        result := result + [event];
      }
      assert entries[..|entries|] == entries;
    }

    /** The repository's query: a missing range runs from the zero time to now, an empty filter is skipped. */
    method QueryEvents(filter: EventFilter, range: Option<(int, int)>, now: int)
      returns (r: Result<seq<Event>, StoreError>)
      requires Valid() && Compiled(filter)
      ensures var (start, end) := if range.Some? then range.value else (ZERO_TIME, now);
              && (start > end ==> r == Err(StartAfterEnd))
              && (start <= end ==> r == Ok(Query(State(), start, end, Some(Shortcut(filter)))))
              && (start <= end && MissesLeftovers(cutoff, start, end)
                  && (forall e :: e in events ==> e.priority >= 0) ==>
                    r.Ok? && StableByBucket(Keep(events, Selects(start, end, Some(MatchedBy(filter)))), r.value))
              && (r.Ok? ==> forall e :: e in r.value ==> start <= e.timestamp <= end && (e.priority >= 0 ==> Matches(filter, e)))
              && (r.Ok? && MissesLeftovers(cutoff, start, end) ==>
                    forall e: Event :: e.priority >= 0 ==>
                      multiset(r.value)[e] == if start <= e.timestamp <= end && Matches(filter, e) then multiset(events)[e] else 0)
    {
      var start, end := if range.Some? then range.value.0 else ZERO_TIME, if range.Some? then range.value.1 else now;
      forall e: Event | e.priority >= 0 ensures Shortcut(filter)(e) == Matches(filter, e) {
        if Empty(filter) { EmptyShortcutIff(filter, e); }
      }
      r := QueryByTime(start, end, Some(Shortcut(filter)));
      if start <= end && MissesLeftovers(cutoff, start, end) && forall e :: e in events ==> e.priority >= 0 {
        ShortcutAgrees(filter, events, start, end);
      }
    }

    method QueryWithPagination(start: int, end: int, filter: Option<Event -> bool>, pageSize: int, pageNumber: int)
      returns (r: Result<(seq<Event>, int), StoreError>)
      requires Valid()
      requires pageSize <= MAX_INT && pageNumber <= MAX_INT
      ensures pageSize < 1 ==> r == Err(BadPageSize)
      ensures pageSize >= 1 && pageNumber < 1 ==> r == Err(BadPageNumber)
      ensures pageSize >= 1 && pageNumber >= 1 && start > end ==> r == Err(StartAfterEnd)
      ensures pageSize >= 1 && pageNumber >= 1 && start <= end ==>
                var all := Query(State(), start, end, filter);
                && r == WithTotal(PageOf(all, pageSize, pageNumber), |all|)
                && (|all| <= 0x4000_0000_0000_0000 && (pageNumber - 1) * pageSize <= MAX_INT ==>
                      r == Ok((Page(all, pageSize, pageNumber), |all|)))
    {
      if pageSize < 1 { return Err(BadPageSize); }
      if pageNumber < 1 { return Err(BadPageNumber); }
      var all := QueryByTime(start, end, filter);
      if all.Err? { return Err(all.error); }
      r := TakePage(all.value, pageSize, pageNumber);
    }

    /** The index arithmetic and the slice. */
    static method TakePage(all: seq<Event>, pageSize: int, pageNumber: int) returns (r: Result<(seq<Event>, int), StoreError>)
      requires 1 <= pageSize <= MAX_INT && 1 <= pageNumber <= MAX_INT
      ensures r == WithTotal(PageOf(all, pageSize, pageNumber), |all|)
      ensures |all| <= 0x4000_0000_0000_0000 && (pageNumber - 1) * pageSize <= MAX_INT ==>
                r == Ok((Page(all, pageSize, pageNumber), |all|))
    {
      if |all| <= 0x4000_0000_0000_0000 { PageExactIff(all, pageSize, pageNumber); }
      var startIdx := Wrap64(Wrap64(pageNumber - 1) * pageSize);
      var endIdx := Wrap64(startIdx + pageSize);
      if startIdx >= |all| { return Ok(([], |all|)); }
      if endIdx > |all| { endIdx := |all|; }
      if !(0 <= startIdx <= endIdx) { return Err(SlicePanic); }
      return Ok((all[startIdx..endIdx], |all|));
    }

    method Count(start: int, end: int) returns (count: nat)
      requires Valid()
      ensures count == |Keep(events, StrictlyInside(start, end))|
      ensures start <= end && MissesLeftovers(cutoff, start, end) ==>
                |Query(State(), start, end, None)| == count + |Keep(events, OnEndpoint(start, end))|
    {
      count := 0;
      for i := 0 to |events|
        invariant count == |Keep(events[..i], StrictlyInside(start, end))|
      {
        KeepPush(events, i, StrictlyInside(start, end));
        if events[i].timestamp > start && events[i].timestamp < end { count := count + 1; }
      }
      assert events[..|events|] == events;
      if start <= end && MissesLeftovers(cutoff, start, end) {
        QueryMinusCount(Tracked(State(), cutoff), start, end);
      }
    }

    /** The `limit` most recent events, newest first; which of several equally recent ones is open. */
    method GetLatest(limit: int) returns (r: Result<seq<Event>, StoreError>)
      ensures limit < 1 ==> r == Err(BadLimit)
      ensures limit >= 1 ==>
                && r.Ok? && |r.value| == (if limit > |events| then |events| else limit)
                && (forall i, j :: 0 <= i < j < |r.value| ==> r.value[i].timestamp >= r.value[j].timestamp)
                && multiset(r.value) <= multiset(events)
                && forall x, y :: x in r.value && multiset(events)[y] > multiset(r.value)[y] ==> x.timestamp >= y.timestamp
    {
      if limit < 1 { return Err(BadLimit); }
      var sorted := SortNewestFirst(events);
      var n := if limit > |sorted| then |sorted| else limit;
      FirstAreLatest(events, sorted, n);
      return Ok(sorted[..n]);
    }
  }

  /** A page and the size of the whole result, or the panic of an invalid slice. */
  function WithTotal(page: Option<seq<Event>>, total: int): Result<(seq<Event>, int), StoreError> {
    if page.Some? then Ok((page.value, total)) else Err(SlicePanic)
  }

  function MatchedBy(filter: EventFilter): Event -> bool {
    (e: Event) => Matches(filter, e)
  }

  /** The predicate the store passes down: an empty filter accepts without looking. */
  function Shortcut(filter: EventFilter): Event -> bool {
    (e: Event) => if Empty(filter) then true else Matches(filter, e)
  }

  lemma ShortcutAgrees(filter: EventFilter, events: seq<Event>, start: int, end: int)
    requires Compiled(filter) && forall e :: e in events ==> e.priority >= 0
    ensures Keep(events, Selects(start, end, Some(Shortcut(filter)))) == Keep(events, Selects(start, end, Some(MatchedBy(filter))))
  {
    if Empty(filter) {
      forall e | e in events
        ensures Selects(start, end, Some(Shortcut(filter)))(e) == Selects(start, end, Some(MatchedBy(filter)))(e)
      {
        EmptyShortcutIff(filter, e);
      }
    }
    KeepAgree(events, Selects(start, end, Some(Shortcut(filter))), Selects(start, end, Some(MatchedBy(filter))));
  }

  /** The next key of a map iteration, in any order. */
  method Pick(keys: set<int>) returns (k: int)
    requires keys != {}
    ensures k in keys
  {
    SomeKey(keys);
    k :| k in keys;
  }

  lemma SomeKey(keys: set<int>)
    ensures keys == {} || exists k :: k in keys
  {
    if forall k :: k !in keys { assert keys == {}; }
  }

  ghost predicate NewestFirst(s: seq<Event>) {
    forall i, j :: 0 <= i < j < |s| ==> s[i].timestamp >= s[j].timestamp
  }

  /** The front of a newest-first arrangement holds the latest events. */
  lemma FirstAreLatest(events: seq<Event>, sorted: seq<Event>, n: nat)
    requires multiset(sorted) == multiset(events) && NewestFirst(sorted) && n <= |sorted|
    ensures |sorted| == |events|
    ensures forall i, j :: 0 <= i < j < n ==> sorted[..n][i].timestamp >= sorted[..n][j].timestamp
    ensures multiset(sorted[..n]) <= multiset(events)
    ensures forall x, y :: x in sorted[..n] && multiset(events)[y] > multiset(sorted[..n])[y] ==> x.timestamp >= y.timestamp
  {
    assert |sorted| == |multiset(sorted)| == |multiset(events)| == |events|;
    assert sorted[..n] + sorted[n..] == sorted;
    assert multiset(events) == multiset(sorted[..n]) + multiset(sorted[n..]);
    forall x, y | x in sorted[..n] && multiset(events)[y] > multiset(sorted[..n])[y] ensures x.timestamp >= y.timestamp {
      assert y in multiset(sorted[n..]);
      Newer(sorted, n, x, y);
    }
  }

  lemma Newer(s: seq<Event>, n: nat, x: Event, y: Event)
    requires NewestFirst(s) && n <= |s| && x in s[..n] && y in s[n..]
    ensures x.timestamp >= y.timestamp
  {
    var i :| 0 <= i < n && s[..n][i] == x;
    var j :| 0 <= j < |s| - n && s[n..][j] == y;
    assert s[i] == x && s[n + j] == y;
  }

  /** Stands for `sort.Slice` with the `After` order: some sorted permutation. */
  method SortNewestFirst(s: seq<Event>) returns (r: seq<Event>)
    ensures multiset(r) == multiset(s) && NewestFirst(r)
  {
    r := [];
    for i := 0 to |s|
      invariant multiset(r) == multiset(s[..i]) && NewestFirst(r)
    {
      r := Insert(r, s[i]);
      assert s[..i + 1] == s[..i] + [s[i]];
    }
    assert s[..|s|] == s;
  }

  method Insert(s: seq<Event>, e: Event) returns (r: seq<Event>)
    requires NewestFirst(s)
    ensures multiset(r) == multiset(s) + multiset{e} && NewestFirst(r)
  {
    var k := 0;
    while k < |s| && s[k].timestamp >= e.timestamp
      invariant 0 <= k <= |s|
      invariant forall j :: 0 <= j < k ==> s[j].timestamp >= e.timestamp
    {
      k := k + 1;
    }
    r := s[..k] + [e] + s[k..];
    assert s == s[..k] + s[k..];
    InsertOrdered(s, k, e, r);
  }

  lemma InsertOrdered(s: seq<Event>, k: nat, e: Event, r: seq<Event>)
    requires NewestFirst(s) && k <= |s| && r == s[..k] + [e] + s[k..]
    requires forall j :: 0 <= j < k ==> s[j].timestamp >= e.timestamp
    requires k < |s| ==> s[k].timestamp < e.timestamp
    ensures NewestFirst(r)
  {
    forall i, j | 0 <= i < j < |r| ensures r[i].timestamp >= r[j].timestamp {
      assert r[i] == if i < k then s[i] else if i == k then e else s[i - 1];
      assert r[j] == if j < k then s[j] else if j == k then e else s[j - 1];
    }
  }
}
