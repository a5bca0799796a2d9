/**
 Range queries over the minute index, compared with the linear scan of the list they stand for.
 */
module ReplayQuery {
  import opened Prelude
  import opened Sequences
  import opened GoTime
  import opened Events
  import opened ReplayIndex

  /** What a query selects: the inclusive range, and the caller's filter when there is one. */
  function Selects(start: int, end: int, filter: Option<Event -> bool>): Event -> bool {
    (e: Event) => start <= e.timestamp <= end && (filter.Some? ==> filter.value(e))
  }

  /** The reference: one pass over the list. */
  function LinearScan(s: StoreState, start: int, end: int, filter: Option<Event -> bool>): seq<Event> {
    Keep(s.events, Selects(start, end, filter))
  }

  /** What the code computes: the keys `lo..hi` in order, each filtered. */
  function IndexScan(s: StoreState, lo: int, hi: int, p: Event -> bool): seq<Event>
    decreases hi - lo
  {
    if hi < lo then [] else IndexScan(s, lo, hi - 1, p) + Keep(BucketOf(s, hi), p)
  }

  function Query(s: StoreState, start: int, end: int, filter: Option<Event -> bool>): seq<Event> {
    IndexScan(s, MinuteBucket(start), MinuteBucket(end), Selects(start, end, filter))
  }

  // ----- Stable ordering by key -----

  /** `xs` arranged by key: keys `lo..hi` in order, the events of one key in their order in `xs`. */
  function ByBucket(xs: seq<Event>, lo: int, hi: int): seq<Event>
    decreases hi - lo
  {
    if hi < lo then [] else ByBucket(xs, lo, hi - 1) + Keep(xs, OfBucket(hi))
  }

  ghost predicate BucketOrdered(xs: seq<Event>) {
    forall i, j :: 0 <= i < j < |xs| ==> MinuteBucket(xs[i].timestamp) <= MinuteBucket(xs[j].timestamp)
  }

  /** `ys` is the stable arrangement of `xs` by key: in key order, each key's events as in `xs`. */
  ghost predicate StableByBucket(xs: seq<Event>, ys: seq<Event>) {
    && BucketOrdered(ys)
    && (forall b :: Keep(ys, OfBucket(b)) == Keep(xs, OfBucket(b)))
  }

  function Between(lo: int, hi: int): Event -> bool {
    (e: Event) => lo <= MinuteBucket(e.timestamp) <= hi
  }

  lemma {:induction false} ByBucketOrdered(xs: seq<Event>, lo: int, hi: int)
    ensures BucketOrdered(ByBucket(xs, lo, hi))
    ensures forall e :: e in ByBucket(xs, lo, hi) ==> Between(lo, hi)(e)
    decreases hi - lo
  {
    if lo <= hi {
      ByBucketOrdered(xs, lo, hi - 1);
      KeepMembers(xs, OfBucket(hi));
      var front, last := ByBucket(xs, lo, hi - 1), Keep(xs, OfBucket(hi));
      assert forall i | 0 <= i < |front| :: front[i] in front;
      assert forall i | 0 <= i < |last| :: last[i] in last;
    }
  }

  lemma {:induction false} ByBucketProjects(xs: seq<Event>, lo: int, hi: int, b: int)
    ensures Keep(ByBucket(xs, lo, hi), OfBucket(b)) == if lo <= b <= hi then Keep(xs, OfBucket(b)) else []
    decreases hi - lo
  {
    if lo <= hi {
      ByBucketProjects(xs, lo, hi - 1, b);
      KeepConcat(ByBucket(xs, lo, hi - 1), Keep(xs, OfBucket(hi)), OfBucket(b));
      KeepMembers(xs, OfBucket(hi));
      if b == hi {
        KeepAll(Keep(xs, OfBucket(hi)), OfBucket(b));
      } else {
        KeepNone(Keep(xs, OfBucket(hi)), OfBucket(b));
      }
    }
  }

  lemma ByBucketStable(xs: seq<Event>, lo: int, hi: int)
    requires forall e :: e in xs ==> Between(lo, hi)(e)
    ensures StableByBucket(xs, ByBucket(xs, lo, hi))
  {
    ByBucketOrdered(xs, lo, hi);
    forall b ensures Keep(ByBucket(xs, lo, hi), OfBucket(b)) == Keep(xs, OfBucket(b)) {
      ByBucketProjects(xs, lo, hi, b);
      if !(lo <= b <= hi) { KeepNone(xs, OfBucket(b)); }
    }
  }

  /** In a key-ordered sequence the last event closes the projection to its key, which is the largest. */
  lemma LastBucket(xs: seq<Event>, e: Event)
    requires BucketOrdered(xs) && e in xs
    ensures MinuteBucket(e.timestamp) <= MinuteBucket(xs[|xs| - 1].timestamp)
  {
    var i :| 0 <= i < |xs| && xs[i] == e;
  }

  /** The stable arrangement is unique: key order and the per-key projections determine it. */
  lemma {:induction false} StableUnique(xs: seq<Event>, ys: seq<Event>)
    requires BucketOrdered(xs) && StableByBucket(xs, ys)
    ensures xs == ys
    decreases |xs|
  {
    if xs == [] {
      if ys != [] {
        SomeProjection(ys);
      }
    } else {
      var x := xs[|xs| - 1];
      var b := MinuteBucket(x.timestamp);
      assert Keep(ys, OfBucket(b)) == Keep(xs, OfBucket(b));
      assert x in Keep(ys, OfBucket(b));
      KeepMembers(ys, OfBucket(b));
      SameLast(xs, ys);
      var xs', ys' := xs[..|xs| - 1], ys[..|ys| - 1];
      forall c ensures Keep(ys', OfBucket(c)) == Keep(xs', OfBucket(c)) {
        var kept := Keep(xs, OfBucket(c));
        assert Keep(ys, OfBucket(c)) == kept;
        if OfBucket(c)(x) {
          assert kept[..|kept| - 1] == Keep(xs', OfBucket(c));
          assert kept[..|kept| - 1] == Keep(ys', OfBucket(c));
        }
      }
      StableUnique(xs', ys');
    }
  }

  lemma SomeProjection(ys: seq<Event>)
    requires ys != []
    ensures exists b :: Keep(ys, OfBucket(b)) != []
  {
    var b := MinuteBucket(ys[0].timestamp);
    KeepMembers(ys, OfBucket(b));
    assert ys[0] in Keep(ys, OfBucket(b));
  }

  lemma SameLast(xs: seq<Event>, ys: seq<Event>)
    requires BucketOrdered(xs) && StableByBucket(xs, ys) && xs != [] && ys != []
    ensures xs[|xs| - 1] == ys[|ys| - 1]
  {
    var x, y := xs[|xs| - 1], ys[|ys| - 1];
    var b, c := MinuteBucket(x.timestamp), MinuteBucket(y.timestamp);
    assert Keep(ys, OfBucket(b)) == Keep(xs, OfBucket(b));
    assert Keep(ys, OfBucket(c)) == Keep(xs, OfBucket(c));
    KeepMembers(ys, OfBucket(b));
    KeepMembers(xs, OfBucket(c));
    assert x in Keep(xs, OfBucket(b)) && y in Keep(ys, OfBucket(c));
    LastBucket(ys, x);
    LastBucket(xs, y);
    var kept := Keep(xs, OfBucket(b));
    assert kept[|kept| - 1] == x;
    assert kept[|kept| - 1] == y;
  }

  /** The arrangement is a permutation of the events whose keys it covers. */
  lemma {:induction false} ByBucketPermutes(xs: seq<Event>, lo: int, hi: int)
    ensures multiset(ByBucket(xs, lo, hi)) == multiset(Keep(xs, Between(lo, hi)))
    decreases hi - lo
  {
    if hi < lo {
      KeepNone(xs, Between(lo, hi));
    } else {
      ByBucketPermutes(xs, lo, hi - 1);
      KeepSplit(xs, Between(lo, hi - 1), OfBucket(hi), Between(lo, hi));
    }
  }

  // ----- When the index answers exactly -----

  /** What a caller can check before asking: the range misses the expired part of the cutoff's key. */
  predicate MissesLeftovers(cutoff: Option<int>, start: int, end: int) {
    cutoff.None? || start > cutoff.value || MinuteBucket(end) < MinuteBucket(cutoff.value)
  }

  lemma ScannedBucketExact(t: Tracked, start: int, end: int, filter: Option<Event -> bool>, b: int)
    requires Consistent(t) && MissesLeftovers(t.cutoff, start, end)
    requires b <= MinuteBucket(end)
    ensures Keep(BucketOf(t.store, b), Selects(start, end, filter))
         == Keep(LinearScan(t.store, start, end, filter), OfBucket(b))
  {
    var p := Selects(start, end, filter);
    KeepCommute(t.store.events, p, OfBucket(b));
    AgreeAboveCutoff(t, b);
    if t.cutoff.Some? {
      if start > t.cutoff.value {
        KeepStronger(BucketOf(t.store, b), NewerThan(t.cutoff.value), p);
        KeepStronger(Keep(t.store.events, OfBucket(b)), NewerThan(t.cutoff.value), p);
      } else {
        assert BucketExact(t.store, b);
      }
    }
  }

  lemma {:induction false} IndexScanIsByBucket(t: Tracked, start: int, end: int, filter: Option<Event -> bool>, lo: int, hi: int)
    requires Consistent(t) && MissesLeftovers(t.cutoff, start, end)
    requires hi <= MinuteBucket(end)
    ensures IndexScan(t.store, lo, hi, Selects(start, end, filter))
         == ByBucket(LinearScan(t.store, start, end, filter), lo, hi)
    decreases hi - lo
  {
    if lo <= hi {
      IndexScanIsByBucket(t, start, end, filter, lo, hi - 1);
      ScannedBucketExact(t, start, end, filter, hi);
    }
  }

  lemma ScanBuckets(s: StoreState, start: int, end: int, filter: Option<Event -> bool>)
    ensures forall e :: e in LinearScan(s, start, end, filter) ==>
              Between(MinuteBucket(start), MinuteBucket(end))(e)
  {
    KeepMembers(s.events, Selects(start, end, filter));
    forall e | e in LinearScan(s, start, end, filter)
      ensures Between(MinuteBucket(start), MinuteBucket(end))(e)
    {
      MinuteBucketMonotone(start, e.timestamp);
      MinuteBucketMonotone(e.timestamp, end);
    }
  }

  /**
   A range that misses the leftovers is answered exactly: the result is the unique stable
   arrangement by key of the linear scan, hence a permutation of it, and the scan itself when the
   list is in time order.
   */
  lemma QueryRefinesScan(t: Tracked, start: int, end: int, filter: Option<Event -> bool>)
    requires Consistent(t) && MissesLeftovers(t.cutoff, start, end)
    ensures var scan, found := LinearScan(t.store, start, end, filter), Query(t.store, start, end, filter);
            && StableByBucket(scan, found)
            && multiset(found) == multiset(scan)
            && (TimeOrdered(t.store.events) ==> found == scan)
  {
    var lo, hi := MinuteBucket(start), MinuteBucket(end);
    var scan := LinearScan(t.store, start, end, filter);
    IndexScanIsByBucket(t, start, end, filter, lo, hi);
    ScanBuckets(t.store, start, end, filter);
    ByBucketStable(scan, lo, hi);
    ByBucketPermutes(scan, lo, hi);
    KeepAll(scan, Between(lo, hi));
    if TimeOrdered(t.store.events) {
      KeepTimeOrdered(t.store.events, Selects(start, end, filter));
      TimeOrderedIsBucketOrdered(scan);
      StableUnique(scan, Query(t.store, start, end, filter));
    }
  }

  lemma TimeOrderedIsBucketOrdered(xs: seq<Event>)
    requires TimeOrdered(xs)
    ensures BucketOrdered(xs)
  {
    forall i, j | 0 <= i < j < |xs|
      ensures MinuteBucket(xs[i].timestamp) <= MinuteBucket(xs[j].timestamp)
    {
      MinuteBucketMonotone(xs[i].timestamp, xs[j].timestamp);
    }
  }

  /** A history whose cleanup at cutoff `c` leaves one expired event at `at` in the index only. */
  function LeftoverHistory(at: int, c: int, retention: int): seq<StoreOp> {
    [StoreEvent(Sample(at), c + retention, c + retention, c + retention)]
  }

  function Sample(at: int): Event {
    Event("leftover", "source", "type", "", [1], "application/json", "", at, map[], "", "", "", PRIORITY_MEDIUM)
  }

  lemma LeftoverIsReturned(c: int, start: int, end: int, retention: int)
    requires start <= end && !MissesLeftovers(Some(c), start, end)
    ensures var at := if c <= end then c else end;
            var created := c + retention - MINUTE - 1;
            var t := Run(LeftoverHistory(at, c, retention), retention, created);
            && Timed(LeftoverHistory(at, c, retention), created)
            && t.cutoff == Some(c)
            && LinearScan(t.store, start, end, None) == []
            && Sample(at) in Query(t.store, start, end, None)
  {
    var at := if c <= end then c else end;
    var created := c + retention - MINUTE - 1;
    var ops := LeftoverHistory(at, c, retention);
    assert ops[..0] == [];
    var t := Run(ops, retention, created);
    var b := MinuteBucket(at);
    MinuteBucketMonotone(at, c);
    MinuteBucketMonotone(at, end);
    MinuteBucketMonotone(start, at);
    assert b == MinuteBucket(c);
    assert Appended(Init(created), Sample(at)).events == [Sample(at)];
    assert Keep([Sample(at)], NewerThan(c)) == [];
    var init := Tracked(Init(created), None);
    assert Run(ops[..0], retention, created) == init;
    assert t == Step(init, ops[0], retention);
    assert t.store.buckets == Cleaned(Appended(Init(created), Sample(at)), c).buckets;
    assert BucketOf(Appended(Init(created), Sample(at)), b) == [Sample(at)];
    assert BucketOf(t.store, b) == [Sample(at)];
    ScanFinds(t.store, MinuteBucket(start), MinuteBucket(end), Selects(start, end, None), b, Sample(at));
  }

  lemma {:induction false} ScanFinds(s: StoreState, lo: int, hi: int, p: Event -> bool, b: int, e: Event)
    requires lo <= b <= hi && e in BucketOf(s, b) && p(e)
    ensures e in IndexScan(s, lo, hi, p)
    decreases hi - lo
  {
    KeepMembers(BucketOf(s, hi), p);
    if b < hi { ScanFinds(s, lo, hi - 1, p, b, e); }
  }

  /** The query returns what the scan of the list returns, in some order. */
  ghost predicate Exact(s: StoreState, start: int, end: int, filter: Option<Event -> bool>) {
    multiset(Query(s, start, end, filter)) == multiset(LinearScan(s, start, end, filter))
  }

  lemma QueryExactWhen(ops: seq<StoreOp>, retention: int, created: int, start: int, end: int, filter: Option<Event -> bool>)
    requires Timed(ops, created) && MissesLeftovers(Run(ops, retention, created).cutoff, start, end)
    ensures Exact(Run(ops, retention, created).store, start, end, filter)
  {
    RunConsistent(ops, retention, created);
    QueryRefinesScan(Run(ops, retention, created), start, end, filter);
  }

  /** The history leads to this store with this last cutoff. */
  ghost predicate Reaches(ops: seq<StoreOp>, created: int, retention: int, c: int, s: StoreState) {
    Timed(ops, created) && Run(ops, retention, created) == Tracked(s, Some(c))
  }

  lemma LeftoverReached(c: int, start: int, end: int, retention: int)
    returns (ops: seq<StoreOp>, created: int, s: StoreState, e: Event)
    requires start <= end && !MissesLeftovers(Some(c), start, end)
    ensures Reaches(ops, created, retention, c, s)
    ensures LinearScan(s, start, end, None) == [] && e in Query(s, start, end, None)
  {
    LeftoverIsReturned(c, start, end, retention);
    var at := if c <= end then c else end;
    ops, created, e := LeftoverHistory(at, c, retention), c + retention - MINUTE - 1, Sample(at);
    s := Run(ops, retention, created).store;
  }

  lemma LeftoverRefutes(c: int, start: int, end: int, retention: int)
    returns (ops: seq<StoreOp>, created: int, s: StoreState)
    requires start <= end && !MissesLeftovers(Some(c), start, end)
    ensures Reaches(ops, created, retention, c, s) && !Exact(s, start, end, None)
  {
    var e;
    ops, created, s, e := LeftoverReached(c, start, end, retention);
    NotExact(s, start, end, e);
  }

  lemma NotExact(s: StoreState, start: int, end: int, e: Event)
    requires LinearScan(s, start, end, None) == [] && e in Query(s, start, end, None)
    ensures !Exact(s, start, end, None)
  {
    assert e in multiset(Query(s, start, end, None));
  }

  /**
   Exactly when queries are right: for a given last cutoff and range, the query is a permutation of
   the linear scan in every history with that cutoff, if and only if the range misses the expired
   part of the cutoff's key.
   */
  lemma QueryExactIff(c: int, start: int, end: int, retention: int)
    requires start <= end
    ensures (forall ops, created, filter | Timed(ops, created) && Run(ops, retention, created).cutoff == Some(c) ::
               Exact(Run(ops, retention, created).store, start, end, filter))
       <==> MissesLeftovers(Some(c), start, end)
  {
    if MissesLeftovers(Some(c), start, end) {
      forall ops, created, filter | Timed(ops, created) && Run(ops, retention, created).cutoff == Some(c)
        ensures Exact(Run(ops, retention, created).store, start, end, filter)
      {
        QueryExactWhen(ops, retention, created, start, end, filter);
      }
    } else {
      var ops, created, s := LeftoverRefutes(c, start, end, retention);
      assert Run(ops, retention, created).store == s;
    }
  }

  /** What a caller asks for: in the inclusive range, and accepted by the filter when there is one. */
  predicate Wanted(start: int, end: int, filter: Option<Event -> bool>, e: Event) {
    start <= e.timestamp && e.timestamp <= end && (filter.None? || filter.value(e))
  }

  lemma {:induction false} ScanMembers(s: StoreState, lo: int, hi: int, p: Event -> bool, e: Event)
    requires e in IndexScan(s, lo, hi, p)
    ensures p(e)
    decreases hi - lo
  {
    if lo <= hi {
      KeepMembers(BucketOf(s, hi), p);
      if e in IndexScan(s, lo, hi - 1, p) { ScanMembers(s, lo, hi - 1, p, e); }
    }
  }

  /** For every range: nothing but what was asked for is returned. */
  lemma OnlyWanted(s: StoreState, start: int, end: int, filter: Option<Event -> bool>, e: Event)
    requires e in Query(s, start, end, filter)
    ensures Wanted(start, end, filter, e)
  {
    ScanMembers(s, MinuteBucket(start), MinuteBucket(end), Selects(start, end, filter), e);
  }

  /** For a range that misses the leftovers: every stored event that is asked for, as often as it is stored. */
  lemma ExactlyWanted(t: Tracked, start: int, end: int, filter: Option<Event -> bool>, e: Event)
    requires Consistent(t) && MissesLeftovers(t.cutoff, start, end) && start <= end
    ensures multiset(Query(t.store, start, end, filter))[e]
         == if Wanted(start, end, filter, e) then multiset(t.store.events)[e] else 0
  {
    QueryRefinesScan(t, start, end, filter);
    KeepCount(t.store.events, Selects(start, end, filter), e);
  }

  /** Over whole histories stored in time order, queries return the in-order filter of the list. */
  lemma QueryInTimeOrder(ops: seq<StoreOp>, retention: int, created: int, start: int, end: int, filter: Option<Event -> bool>)
    requires Timed(ops, created) && TimeOrdered(Stored(ops))
    requires MissesLeftovers(Run(ops, retention, created).cutoff, start, end)
    ensures var s := Run(ops, retention, created).store;
            Query(s, start, end, filter) == LinearScan(s, start, end, filter)
  {
    RunConsistent(ops, retention, created);
    RunTimeOrdered(ops, retention, created);
    QueryRefinesScan(Run(ops, retention, created), start, end, filter);
  }
}
