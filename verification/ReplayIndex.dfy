/**
 The replay store as a value: a flat list of events and a map from minute keys to events, changed
 together by Store and Clear but cleaned by different rules. The run theorems of this module say
 what the map still knows about the list after any history.
 */
module ReplayIndex {
  import opened Prelude
  import opened Sequences
  import opened GoTime
  import opened Events

  datatype StoreState = StoreState(events: seq<Event>, buckets: map<int, seq<Event>>, lastCleanup: int)

  /** The store together with the cutoff of its last cleanup since creation or Clear. */
  datatype Tracked = Tracked(store: StoreState, cutoff: Option<int>)

  /** `checked`, `cut` and `finished` are the three clock readings one Store call can make. */
  datatype StoreOp = StoreEvent(event: Event, checked: int, cut: int, finished: int) | Clear

  function OfBucket(b: int): Event -> bool {
    (e: Event) => MinuteBucket(e.timestamp) == b
  }

  function NewerThan(c: int): Event -> bool {
    (e: Event) => e.timestamp > c
  }

  function BucketOf(s: StoreState, b: int): seq<Event> {
    if b in s.buckets then s.buckets[b] else []
  }

  function Init(now: int): StoreState {
    StoreState([], map[], now)
  }

  function Appended(s: StoreState, e: Event): StoreState {
    var b := MinuteBucket(e.timestamp);
    s.(events := s.events + [e], buckets := s.buckets[b := BucketOf(s, b) + [e]])
  }

  /** The list loses every event at or before the cutoff, the map whole keys before the cutoff's key. */
  function Cleaned(s: StoreState, cutoff: int): StoreState {
    s.(events := Keep(s.events, NewerThan(cutoff)),
       buckets := map b | b in s.buckets && b >= MinuteBucket(cutoff) :: s.buckets[b])
  }

  predicate Due(s: StoreState, op: StoreOp)
    requires op.StoreEvent?
  {
    op.checked - s.lastCleanup > MINUTE
  }

  function Apply(s: StoreState, op: StoreOp, retention: int): StoreState {
    match op
    case Clear => s.(events := [], buckets := map[])
    case StoreEvent(e, _, cut, finished) =>
      if Due(s, op) then Cleaned(Appended(s, e), cut - retention).(lastCleanup := finished)
      else Appended(s, e)
  }

  function Step(t: Tracked, op: StoreOp, retention: int): Tracked {
    Tracked(Apply(t.store, op, retention),
            if op.Clear? then None
            else if Due(t.store, op) then Some(op.cut - retention)
            else t.cutoff)
  }

  function Run(ops: seq<StoreOp>, retention: int, created: int): Tracked {
    if ops == [] then Tracked(Init(created), None)
    else Step(Run(ops[..|ops| - 1], retention, created), ops[|ops| - 1], retention)
  }

  /** The clock's last reading after a history. */
  function Clock(ops: seq<StoreOp>, created: int): int {
    if ops == [] then created
    else if ops[|ops| - 1].StoreEvent? then ops[|ops| - 1].finished
    else Clock(ops[..|ops| - 1], created)
  }

  /** The clock never runs backwards during the history. */
  predicate Timed(ops: seq<StoreOp>, created: int) {
    ops == [] ||
    (Timed(ops[..|ops| - 1], created) &&
     (ops[|ops| - 1].StoreEvent? ==>
        Clock(ops[..|ops| - 1], created) <= ops[|ops| - 1].checked <= ops[|ops| - 1].cut <= ops[|ops| - 1].finished))
  }

  // ----- What the index knows about the list -----

  /** Key `b` lists exactly the stored events of that key, in storage order. */
  ghost predicate BucketExact(s: StoreState, b: int) {
    BucketOf(s, b) == Keep(s.events, OfBucket(b))
  }

  /**
   The cutoff's own key: the entries present at the last cleanup (the first `mark`) are expired or
   still listed, every later entry is listed.
   */
  ghost predicate CutoffBucket(s: StoreState, c: int, mark: nat) {
    var b := MinuteBucket(c);
    mark <= |BucketOf(s, b)| &&
    Keep(s.events, OfBucket(b)) == Keep(BucketOf(s, b)[..mark], NewerThan(c)) + BucketOf(s, b)[mark..]
  }

  /** Every entry is filed under its own key. */
  ghost predicate Keyed(s: StoreState) {
    forall b, e :: e in BucketOf(s, b) ==> OfBucket(b)(e)
  }

  ghost predicate Consistent(t: Tracked) {
    && Keyed(t.store)
    && (forall b :: (t.cutoff.None? || b != MinuteBucket(t.cutoff.value)) ==> BucketExact(t.store, b))
    && (t.cutoff.Some? ==> exists mark: nat :: CutoffBucket(t.store, t.cutoff.value, mark))
  }

  lemma AppendedBucket(s: StoreState, e: Event, b: int)
    ensures BucketOf(Appended(s, e), b) == BucketOf(s, b) + (if OfBucket(b)(e) then [e] else [])
    ensures Keep(Appended(s, e).events, OfBucket(b))
         == Keep(s.events, OfBucket(b)) + (if OfBucket(b)(e) then [e] else [])
  {
    KeepConcat(s.events, [e], OfBucket(b));
  }

  lemma AppendKeepsExact(s: StoreState, e: Event, b: int)
    requires BucketExact(s, b)
    ensures BucketExact(Appended(s, e), b)
  {
    AppendedBucket(s, e, b);
  }

  lemma AppendKeepsCutoff(s: StoreState, e: Event, c: int, mark: nat)
    requires CutoffBucket(s, c, mark)
    ensures CutoffBucket(Appended(s, e), c, mark)
  {
    AppendedBucket(s, e, MinuteBucket(c));
    var before := BucketOf(s, MinuteBucket(c));
    var after := BucketOf(Appended(s, e), MinuteBucket(c));
    assert after[..mark] == before[..mark];
    assert after[mark..] == before[mark..] + after[|before|..];
    Associate(Keep(before[..mark], NewerThan(c)), before[mark..], after[|before|..]);
  }

  lemma AppendKeepsKeyed(s: StoreState, e: Event)
    requires Keyed(s)
    ensures Keyed(Appended(s, e))
  {
    forall b, x | x in BucketOf(Appended(s, e), b) ensures OfBucket(b)(x) {
      AppendedBucket(s, e, b);
    }
  }

  lemma AppendKeeps(t: Tracked, e: Event)
    requires Consistent(t)
    ensures Consistent(Tracked(Appended(t.store, e), t.cutoff))
  {
    AppendKeepsKeyed(t.store, e);
    forall b | t.cutoff.None? || b != MinuteBucket(t.cutoff.value)
      ensures BucketExact(Appended(t.store, e), b)
    {
      AppendKeepsExact(t.store, e, b);
    }
    if t.cutoff.Some? {
      var mark: nat :| CutoffBucket(t.store, t.cutoff.value, mark);
      AppendKeepsCutoff(t.store, e, t.cutoff.value, mark);
    }
  }

  /** Filtering the cutoff key's list again at a later cutoff sees no trace of the earlier cleanup. */
  lemma CutoffBucketAgain(s: StoreState, c: int, mark: nat, c': int)
    requires CutoffBucket(s, c, mark) && c <= c'
    ensures Keep(Keep(s.events, OfBucket(MinuteBucket(c))), NewerThan(c'))
         == Keep(BucketOf(s, MinuteBucket(c)), NewerThan(c'))
  {
    KeepTwice(BucketOf(s, MinuteBucket(c)), mark, c, c');
  }

  /** Having filtered the front at an earlier cutoff makes no difference. */
  lemma KeepTwice(entries: seq<Event>, mark: nat, c: int, c': int)
    requires mark <= |entries| && c <= c'
    ensures Keep(Keep(entries[..mark], NewerThan(c)) + entries[mark..], NewerThan(c')) == Keep(entries, NewerThan(c'))
  {
    KeepConcat(Keep(entries[..mark], NewerThan(c)), entries[mark..], NewerThan(c'));
    KeepStronger(entries[..mark], NewerThan(c), NewerThan(c'));
    KeepConcat(entries[..mark], entries[mark..], NewerThan(c'));
    assert entries == entries[..mark] + entries[mark..];
  }

  /** A key before the cutoff's is gone, and so are all its events. */
  lemma CleanedBefore(s: StoreState, c: int, b: int)
    requires b < MinuteBucket(c)
    ensures BucketExact(Cleaned(s, c), b)
  {
    KeepCommute(s.events, NewerThan(c), OfBucket(b));
    forall e | e in Keep(s.events, OfBucket(b)) ensures !NewerThan(c)(e) {
      KeepMembers(s.events, OfBucket(b));
      if e.timestamp > c { MinuteBucketMonotone(c, e.timestamp); }
    }
    KeepNone(Keep(s.events, OfBucket(b)), NewerThan(c));
  }

  /** A key after the cutoff's is untouched. */
  lemma CleanedAfter(s: StoreState, c: int, b: int)
    requires b > MinuteBucket(c) && BucketExact(s, b)
    ensures BucketExact(Cleaned(s, c), b)
  {
    KeepCommute(s.events, NewerThan(c), OfBucket(b));
    forall e | e in Keep(s.events, OfBucket(b)) ensures NewerThan(c)(e) {
      KeepMembers(s.events, OfBucket(b));
      if e.timestamp <= c { MinuteBucketMonotone(e.timestamp, c); }
    }
    KeepAll(Keep(s.events, OfBucket(b)), NewerThan(c));
  }

  /** The cutoff's own key keeps all its entries, while the list loses the expired ones. */
  lemma CleanedAt(t: Tracked, c: int)
    requires Consistent(t)
    requires t.cutoff.Some? ==> t.cutoff.value <= c
    ensures CutoffBucket(Cleaned(t.store, c), c, |BucketOf(t.store, MinuteBucket(c))|)
  {
    var s, b := t.store, MinuteBucket(c);
    KeepCommute(s.events, NewerThan(c), OfBucket(b));
    assert BucketOf(Cleaned(s, c), b) == BucketOf(s, b);
    assert BucketOf(s, b)[..|BucketOf(s, b)|] == BucketOf(s, b);
    if t.cutoff.Some? && b == MinuteBucket(t.cutoff.value) {
      var mark: nat :| CutoffBucket(s, t.cutoff.value, mark);
      CutoffBucketAgain(s, t.cutoff.value, mark, c);
    } else {
      assert BucketExact(s, b);
    }
  }

  /** Every key after a cleanup, by its position relative to the cutoff's key. */
  lemma CleanedBucket(t: Tracked, c: int, b: int)
    requires Consistent(t)
    requires t.cutoff.Some? ==> t.cutoff.value <= c
    ensures b != MinuteBucket(c) ==> BucketExact(Cleaned(t.store, c), b)
    ensures b == MinuteBucket(c) ==> CutoffBucket(Cleaned(t.store, c), c, |BucketOf(t.store, b)|)
  {
    if b < MinuteBucket(c) {
      CleanedBefore(t.store, c, b);
    } else if b > MinuteBucket(c) {
      if t.cutoff.Some? { MinuteBucketMonotone(t.cutoff.value, c); }
      CleanedAfter(t.store, c, b);
    } else {
      CleanedAt(t, c);
    }
  }

  lemma CleanupKeeps(t: Tracked, c: int)
    requires Consistent(t)
    requires t.cutoff.Some? ==> t.cutoff.value <= c
    ensures Consistent(Tracked(Cleaned(t.store, c), Some(c)))
  {
    var s' := Cleaned(t.store, c);
    forall b, x | x in BucketOf(s', b) ensures OfBucket(b)(x) {
      assert x in BucketOf(t.store, b);
    }
    forall b | b != MinuteBucket(c) ensures BucketExact(s', b) {
      CleanedBucket(t, c, b);
    }
    CleanedBucket(t, c, MinuteBucket(c));
  }

  /** The step differs from append and cleanup only in the time of the last cleanup. */
  lemma DueStepKeeps(t: Tracked, op: StoreOp, retention: int)
    requires Consistent(t) && op.StoreEvent? && Due(t.store, op)
    requires t.cutoff.Some? ==> t.cutoff.value <= op.cut - retention
    ensures Consistent(Step(t, op, retention))
  {
    var c := op.cut - retention;
    AppendKeeps(t, op.event);
    CleanupKeeps(Tracked(Appended(t.store, op.event), t.cutoff), c);
    SameIndex(Tracked(Cleaned(Appended(t.store, op.event), c), Some(c)), Step(t, op, retention));
  }

  /** One operation keeps the index consistent, provided the cutoff does not move backwards. */
  lemma StepKeeps(t: Tracked, op: StoreOp, retention: int)
    requires Consistent(t)
    requires op.StoreEvent? && t.cutoff.Some? ==> t.cutoff.value <= op.cut - retention
    ensures Consistent(Step(t, op, retention))
  {
    if op.StoreEvent? {
      if Due(t.store, op) {
        DueStepKeeps(t, op, retention);
      } else {
        AppendKeeps(t, op.event);
        assert Step(t, op, retention) == Tracked(Appended(t.store, op.event), t.cutoff);
      }
    }
  }

  lemma SameIndex(t: Tracked, u: Tracked)
    requires Consistent(t)
    requires t.cutoff == u.cutoff && t.store.events == u.store.events && t.store.buckets == u.store.buckets
    ensures Consistent(u)
  {
    forall b, x | x in BucketOf(u.store, b) ensures OfBucket(b)(x) {
      assert x in BucketOf(t.store, b);
    }
    forall b | u.cutoff.None? || b != MinuteBucket(u.cutoff.value) ensures BucketExact(u.store, b) {
      assert BucketExact(t.store, b);
    }
    if u.cutoff.Some? {
      var mark: nat :| CutoffBucket(t.store, t.cutoff.value, mark);
      assert CutoffBucket(u.store, u.cutoff.value, mark);
    }
  }

  /** In every history the index is consistent and the last cutoff lies in the clock's past. */
  lemma {:induction false} RunConsistent(ops: seq<StoreOp>, retention: int, created: int)
    requires Timed(ops, created)
    ensures Consistent(Run(ops, retention, created))
    ensures var c := Run(ops, retention, created).cutoff;
            c.Some? ==> c.value <= Clock(ops, created) - retention
  {
    if ops != [] {
      RunConsistent(ops[..|ops| - 1], retention, created);
      StepKeeps(Run(ops[..|ops| - 1], retention, created), ops[|ops| - 1], retention);
    }
  }

  /** Above the cutoff a consistent index and the list agree key by key, as sequences. */
  lemma AgreeAboveCutoff(t: Tracked, b: int)
    requires Consistent(t)
    ensures t.cutoff.None? ==> BucketOf(t.store, b) == Keep(t.store.events, OfBucket(b))
    ensures t.cutoff.Some? ==>
              Keep(BucketOf(t.store, b), NewerThan(t.cutoff.value))
                == Keep(Keep(t.store.events, OfBucket(b)), NewerThan(t.cutoff.value))
  {
    if t.cutoff.None? || b != MinuteBucket(t.cutoff.value) {
      assert BucketExact(t.store, b);
    } else {
      var mark: nat :| CutoffBucket(t.store, t.cutoff.value, mark);
      CutoffBucketAgain(t.store, t.cutoff.value, mark, t.cutoff.value);
    }
  }

  lemma CutoffMembers(s: StoreState, c: int, mark: nat, e: Event)
    requires CutoffBucket(s, c, mark)
    ensures e in s.events && OfBucket(MinuteBucket(c))(e) ==> e in BucketOf(s, MinuteBucket(c))
    ensures e in BucketOf(s, MinuteBucket(c)) && e !in s.events ==> e.timestamp <= c
  {
    var b := MinuteBucket(c);
    var entries := BucketOf(s, b);
    KeepMembers(s.events, OfBucket(b));
    KeepMembers(entries[..mark], NewerThan(c));
    assert entries == entries[..mark] + entries[mark..];
  }

  /** Nothing listed is missing from a consistent index; what only the index holds is expired. */
  lemma IndexMembers(t: Tracked, b: int, e: Event)
    requires Consistent(t)
    ensures e in t.store.events && OfBucket(b)(e) ==> e in BucketOf(t.store, b)
    ensures e in BucketOf(t.store, b) && e !in t.store.events ==>
              t.cutoff.Some? && e.timestamp <= t.cutoff.value && b == MinuteBucket(t.cutoff.value)
  {
    if t.cutoff.None? || b != MinuteBucket(t.cutoff.value) {
      assert BucketExact(t.store, b);
      KeepMembers(t.store.events, OfBucket(b));
    } else {
      var mark: nat :| CutoffBucket(t.store, t.cutoff.value, mark);
      CutoffMembers(t.store, t.cutoff.value, mark, e);
    }
  }

  /**
   Index refinement over all histories. Above the last cutoff, every key lists exactly the stored
   events of that key; nothing listed is missing from the index; what only the index still holds is
   expired and lies in the cutoff's own key.
   */
  lemma IndexRefinesList(ops: seq<StoreOp>, retention: int, created: int, b: int)
    requires Timed(ops, created)
    ensures var t := Run(ops, retention, created);
            && (t.cutoff.None? ==> BucketOf(t.store, b) == Keep(t.store.events, OfBucket(b)))
            && (t.cutoff.Some? ==>
                  Keep(BucketOf(t.store, b), NewerThan(t.cutoff.value))
                    == Keep(Keep(t.store.events, OfBucket(b)), NewerThan(t.cutoff.value)))
            && (forall e :: e in t.store.events && OfBucket(b)(e) ==> e in BucketOf(t.store, b))
            && (forall e :: e in BucketOf(t.store, b) && e !in t.store.events ==>
                  t.cutoff.Some? && e.timestamp <= t.cutoff.value && b == MinuteBucket(t.cutoff.value))
            && (forall e :: e in BucketOf(t.store, b) ==> MinuteBucket(e.timestamp) == b)
  {
    RunConsistent(ops, retention, created);
    var t := Run(ops, retention, created);
    AgreeAboveCutoff(t, b);
    forall e
      ensures e in t.store.events && OfBucket(b)(e) ==> e in BucketOf(t.store, b)
      ensures e in BucketOf(t.store, b) && e !in t.store.events ==>
                t.cutoff.Some? && e.timestamp <= t.cutoff.value && b == MinuteBucket(t.cutoff.value)
    {
      IndexMembers(t, b, e);
    }
  }

  // ----- What the list retains -----

  /**
   One Store keeps every event but those at or before the cutoff of a cleanup, which runs when the
   last one finished more than a minute before.
   */
  lemma StoreRetains(s: StoreState, op: StoreOp, retention: int, e: Event)
    requires op.StoreEvent?
    ensures var s', due := Apply(s, op, retention), op.checked - s.lastCleanup > 60 * SECOND;
            && multiset(s'.events)[e]
                 == (if due && e.timestamp <= op.cut - retention then 0
                     else multiset(s.events)[e] + (if e == op.event then 1 else 0))
            && s'.lastCleanup == (if due then op.finished else s.lastCleanup)
  {
    assert multiset(s.events + [op.event]) == multiset(s.events) + multiset{op.event};
    KeepCount(s.events + [op.event], NewerThan(op.cut - retention), e);
  }

  // ----- Storage in time order -----

  ghost predicate TimeOrdered(events: seq<Event>) {
    forall i, j :: 0 <= i < j < |events| ==> events[i].timestamp <= events[j].timestamp
  }

  /** The events handed to Store, in call order. */
  function Stored(ops: seq<StoreOp>): seq<Event> {
    if ops == [] then []
    else Stored(ops[..|ops| - 1]) +
         (if ops[|ops| - 1].StoreEvent? then [ops[|ops| - 1].event] else [])
  }

  lemma {:induction false} KeepTimeOrdered(s: seq<Event>, p: Event -> bool)
    requires TimeOrdered(s)
    ensures TimeOrdered(Keep(s, p))
  {
    if s != [] {
      var front := s[..|s| - 1];
      KeepTimeOrdered(front, p);
      KeepMembers(front, p);
      forall e | e in Keep(front, p) ensures e.timestamp <= s[|s| - 1].timestamp {
        assert e in front;
        var i :| 0 <= i < |front| && front[i] == e;
        assert s[i] == e;
      }
    }
  }

  /** Appending the newest of a time-ordered history to a part of it. */
  lemma AppendTimeOrdered(part: seq<Event>, history: seq<Event>, e: Event)
    requires TimeOrdered(part) && TimeOrdered(history + [e])
    requires forall x :: x in part ==> x in history
    ensures TimeOrdered(part + [e])
  {
    forall i | 0 <= i < |part| ensures part[i].timestamp <= e.timestamp {
      assert part[i] in history;
      var j :| 0 <= j < |history| && history[j] == part[i];
      assert (history + [e])[j] == part[i] && (history + [e])[|history|] == e;
    }
  }

  lemma StoreTimeOrdered(s: StoreState, history: seq<Event>, op: StoreOp, retention: int)
    requires op.StoreEvent? && TimeOrdered(s.events) && TimeOrdered(history + [op.event])
    requires forall x :: x in s.events ==> x in history
    ensures TimeOrdered(Apply(s, op, retention).events)
    ensures forall x :: x in Apply(s, op, retention).events ==> x in history + [op.event]
  {
    var listed := s.events + [op.event];
    AppendTimeOrdered(s.events, history, op.event);
    KeepTimeOrdered(listed, NewerThan(op.cut - retention));
    KeepMembers(listed, NewerThan(op.cut - retention));
  }

  lemma TimeOrderedPrefix(history: seq<Event>, e: Event)
    requires TimeOrdered(history + [e])
    ensures TimeOrdered(history)
  {
    forall i, j | 0 <= i < j < |history| ensures history[i].timestamp <= history[j].timestamp {
      assert (history + [e])[i] == history[i] && (history + [e])[j] == history[j];
    }
  }

  /** If events arrive in time order, the list is in time order after every history. */
  lemma {:induction false} RunTimeOrdered(ops: seq<StoreOp>, retention: int, created: int)
    requires TimeOrdered(Stored(ops))
    ensures TimeOrdered(Run(ops, retention, created).store.events)
    ensures forall e :: e in Run(ops, retention, created).store.events ==> e in Stored(ops)
  {
    if ops != [] {
      var front, last := ops[..|ops| - 1], ops[|ops| - 1];
      if last.StoreEvent? {
        TimeOrderedPrefix(Stored(front), last.event);
        RunTimeOrdered(front, retention, created);
        StoreTimeOrdered(Run(front, retention, created).store, Stored(front), last, retention);
      }
    }
  }
}
