/**
 The schema validator's two maps. GetSchema reads an entry under the read lock, tests its age outside
 any lock, and, if it had expired, deletes under the write lock; anything can happen in between.
 */
module SchemaCache {
  import opened Prelude

  type Schema = string

  /** What a GetSchema call holds between its read and its test. */
  datatype Reading = Reading(id: string, schema: Schema, at: int)

  datatype State = State(
    schemas: map<string, Schema>,
    cache: map<string, int>,
    readings: multiset<Reading>,  // GetSchema calls that have read and not yet tested
    expiring: multiset<string>)   // GetSchema calls that found their reading expired and have not yet deleted

  datatype Step =
    | Register(id: string, schema: Schema, now: int)
    | Read(id: string)                     // GetSchema's first critical section
    | Test(reading: Reading, now: int)     // its expiry test
    | Drop(id: string)                     // its second critical section
    | Unregister(id: string)
    | ClearCache(now: int)

  predicate Expired(s: State, ttl: int, id: string, now: int) {
    id in s.cache && now - s.cache[id] > ttl
  }

  /** What GetSchema returns when nothing comes between: the schema, or nothing. */
  function Answer(s: State, ttl: int, id: string, now: int): Option<Schema> {
    if id in s.schemas && !Expired(s, ttl, id, now) then Some(s.schemas[id]) else None
  }

  /** What GetSchema returns from its test. */
  function Returns(ttl: int, r: Reading, now: int): Option<Schema> {
    if now - r.at > ttl then None else Some(r.schema)
  }

  function Without(s: State, id: string): State {
    s.(schemas := s.schemas - {id}, cache := s.cache - {id})
  }

  predicate Enabled(s: State, step: Step) {
    (step.Drop? ==> step.id in s.expiring) && (step.Test? ==> step.reading in s.readings)
  }

  function Next(s: State, ttl: int, step: Step): State {
    match step
    case Register(id, schema, now) => s.(schemas := s.schemas[id := schema], cache := s.cache[id := now])
    case Read(id) =>
      if id in s.schemas && id in s.cache
      then s.(readings := s.readings + multiset{Reading(id, s.schemas[id], s.cache[id])})
      else s
    case Test(r, now) =>
      s.(readings := s.readings - multiset{r},
         expiring := if Returns(ttl, r, now).None? then s.expiring + multiset{r.id} else s.expiring)
    case Drop(id) => Without(s, id).(expiring := s.expiring - multiset{id})
    case Unregister(id) => if id in s.schemas then Without(s, id) else s
    case ClearCache(now) =>
      s.(schemas := map id | id in s.schemas && !Expired(s, ttl, id, now) :: s.schemas[id],
         cache := map id | id in s.cache && !Expired(s, ttl, id, now) :: s.cache[id])
  }

  function Run(s: State, ttl: int, steps: seq<Step>): Option<State> {
    if steps == [] then Some(s)
    else
      var before := Run(s, ttl, steps[..|steps| - 1]);
      if before.Some? && Enabled(before.value, steps[|steps| - 1])
      then Some(Next(before.value, ttl, steps[|steps| - 1]))
      else None
  }

  const Fresh: State := State(map[], map[], multiset{}, multiset{})

  predicate Clocked(step: Step) {
    step.Register? || step.Test? || step.ClearCache?
  }

  /** The clock after the steps. */
  function Now(steps: seq<Step>, from: int): int {
    if steps == [] then from
    else if Clocked(steps[|steps| - 1]) then steps[|steps| - 1].now
    else Now(steps[..|steps| - 1], from)
  }

  /** The clock starts no earlier than `from` and never runs backwards. */
  predicate InTime(steps: seq<Step>, from: int) {
    steps == [] ||
    (InTime(steps[..|steps| - 1], from) &&
     (Clocked(steps[|steps| - 1]) ==> Now(steps[..|steps| - 1], from) <= steps[|steps| - 1].now))
  }

  // ----- The object -----

  datatype SchemaError = EmptyID | EmptySchema | DoesNotCompile | NotFound | CacheExpired

  class SchemaValidator {
    var schemas: map<string, Schema>
    var cache: map<string, int>
    const cacheTTL: int

    ghost function Value(): State
      reads this
    {
      State(schemas, cache, multiset{}, multiset{})
    }

    ghost predicate Valid()
      reads this
    {
      schemas.Keys == cache.Keys
    }

    constructor (ttl: int)
      ensures Valid() && cacheTTL == ttl && Value() == Fresh
    {
      cacheTTL, schemas, cache := ttl, map[], map[];
    }

    method RegisterSchema(id: string, schemaJSON: string, compile: string -> Option<Schema>, now: int)
      returns (r: Result<(), SchemaError>)
      requires Valid()
      modifies this
      ensures Valid()
      ensures id == "" ==> r == Err(EmptyID)
      ensures id != "" && schemaJSON == "" ==> r == Err(EmptySchema)
      ensures id != "" && schemaJSON != "" ==> (r.Ok? <==> compile(schemaJSON).Some?) && (r.Err? ==> r == Err(DoesNotCompile))
      ensures r.Ok? ==> Value() == Next(old(Value()), cacheTTL, Register(id, compile(schemaJSON).value, now))
      ensures r.Ok? ==> schemas == old(schemas)[id := compile(schemaJSON).value] && cache == old(cache)[id := now]
      ensures r.Err? ==> Value() == old(Value())
    {
      if id == "" { return Err(EmptyID); }
      if |schemaJSON| == 0 { return Err(EmptySchema); }
      var compiled := compile(schemaJSON);
      if compiled.None? { return Err(DoesNotCompile); }
      schemas := schemas[id := compiled.value];
      cache := cache[id := now];
      return Ok(());
    }

    /** Without interference the two sections follow each other directly. */
    method GetSchema(id: string, now: int) returns (r: Result<Schema, SchemaError>)
      requires Valid()
      modifies this
      ensures Valid()
      ensures id == "" ==> r == Err(EmptyID) && Value() == old(Value())
      ensures id != "" ==> (r.Ok? <==> old(Answer(Value(), cacheTTL, id, now)).Some?)
      ensures r.Ok? ==> r.value == old(Answer(Value(), cacheTTL, id, now)).value && Value() == old(Value())
      ensures id != "" && r.Err? && id in old(schemas) ==> r == Err(CacheExpired) && Value() == Without(old(Value()), id)
      ensures id != "" && r.Err? && id !in old(schemas) ==> r == Err(NotFound) && Value() == old(Value())
    {
      if id == "" { return Err(EmptyID); }
      if id !in schemas { return Err(NotFound); }
      var schema, cacheTime := schemas[id], cache[id];
      if now - cacheTime > cacheTTL {
        schemas := schemas - {id};
        cache := cache - {id};
        return Err(CacheExpired);
      }
      return Ok(schema);
    }

    method UnregisterSchema(id: string) returns (r: Result<(), SchemaError>)
      requires Valid()
      modifies this
      ensures Valid()
      ensures id == "" ==> r == Err(EmptyID)
      ensures id != "" ==> r == if id in old(schemas) then Ok(()) else Err(NotFound)
      ensures Value() == if r.Ok? then Next(old(Value()), cacheTTL, Unregister(id)) else old(Value())
      ensures r.Ok? ==> schemas == old(schemas) - {id} && cache == old(cache) - {id}
    {
      if id == "" { return Err(EmptyID); }
      if id !in schemas { return Err(NotFound); }
      schemas := schemas - {id};
      cache := cache - {id};
      return Ok(());
    }

    method Clear(now: int)
      requires Valid()
      modifies this
      ensures Valid() && Value() == Next(old(Value()), cacheTTL, ClearCache(now))
      ensures forall id :: id in schemas <==> id in old(schemas) && now - old(cache)[id] <= cacheTTL
      ensures forall id :: id in schemas ==> schemas[id] == old(schemas)[id] && cache[id] == old(cache)[id]
    {
      var todo := cache.Keys;
      ghost var gone: set<string> := {};
      while todo != {}
        invariant todo <= old(cache).Keys && gone !! todo
        invariant gone == set id | id in old(cache) && id !in todo && now - old(cache)[id] > cacheTTL
        invariant schemas == old(schemas) - gone && cache == old(cache) - gone
      {
        var id :| id in todo;
        if now - cache[id] > cacheTTL {
          schemas := schemas - {id};
          cache := cache - {id};
          gone := gone + {id};
        }
        todo := todo - {id};
      }
      assert schemas == Next(old(Value()), cacheTTL, ClearCache(now)).schemas;
      assert cache == Next(old(Value()), cacheTTL, ClearCache(now)).cache;
    }
  }

  // ----- Every interleaving -----

  /** In every interleaving both maps have the same keys. */
  lemma {:induction false} SameKeys(ttl: int, steps: seq<Step>)
    requires Run(Fresh, ttl, steps).Some?
    ensures Run(Fresh, ttl, steps).value.schemas.Keys == Run(Fresh, ttl, steps).value.cache.Keys
  {
    if steps != [] { SameKeys(ttl, steps[..|steps| - 1]); }
  }

  /** Steps that take an entry of `id` away or replace it. */
  predicate Touches(step: Step, id: string) {
    (step.Register? || step.Unregister? || step.Drop?) && step.id == id
  }

  /** Step `k` registered this schema at this time, and nothing has touched the entry since. */
  ghost predicate RegisteredAt(steps: seq<Step>, k: nat, id: string, schema: Schema, at: int) {
    && k < |steps| && steps[k] == Register(id, schema, at)
    && forall j :: k < j < |steps| ==> !Touches(steps[j], id)
  }

  /** Every entry stems from the latest registration of its id, and carries its time. */
  lemma {:induction false} EntryStems(ttl: int, steps: seq<Step>, id: string) returns (k: nat)
    requires Run(Fresh, ttl, steps).Some? && id in Run(Fresh, ttl, steps).value.schemas
    ensures id in Run(Fresh, ttl, steps).value.cache
    ensures RegisteredAt(steps, k, id, Run(Fresh, ttl, steps).value.schemas[id], Run(Fresh, ttl, steps).value.cache[id])
  {
    SameKeys(ttl, steps);
    var front, last := steps[..|steps| - 1], steps[|steps| - 1];
    if last.Register? && last.id == id {
      k := |steps| - 1;
    } else {
      SameKeys(ttl, front);
      var s := Run(Fresh, ttl, front).value;
      EntryStays(s, ttl, last, id);
      k := EntryStems(ttl, front, id);
      StillRegistered(steps, k, id, s.schemas[id], s.cache[id]);
    }
  }

  /** An entry that is there after a step other than its registration was there before, untouched. */
  lemma EntryStays(s: State, ttl: int, step: Step, id: string)
    requires s.schemas.Keys == s.cache.Keys && id in Next(s, ttl, step).schemas && !(step.Register? && step.id == id)
    ensures !Touches(step, id) && id in s.schemas
    ensures Next(s, ttl, step).schemas[id] == s.schemas[id]
    ensures id in Next(s, ttl, step).cache && Next(s, ttl, step).cache[id] == s.cache[id]
  {
  }

  lemma StillRegistered(steps: seq<Step>, k: nat, id: string, schema: Schema, at: int)
    requires steps != [] && RegisteredAt(steps[..|steps| - 1], k, id, schema, at) && !Touches(steps[|steps| - 1], id)
    ensures RegisteredAt(steps, k, id, schema, at)
  {
    var front := steps[..|steps| - 1];
    assert forall j :: 0 <= j < |front| ==> front[j] == steps[j];
  }

  /** A reading is that of an entry that was current when it was read, at step `m`. */
  ghost predicate ReadAt(steps: seq<Step>, m: nat, k: nat, r: Reading) {
    m < |steps| && steps[m] == Read(r.id) && RegisteredAt(steps[..m], k, r.id, r.schema, r.at)
  }

  lemma {:induction false} ReadingStems(ttl: int, steps: seq<Step>, r: Reading) returns (m: nat, k: nat)
    requires Run(Fresh, ttl, steps).Some? && r in Run(Fresh, ttl, steps).value.readings
    ensures ReadAt(steps, m, k, r)
  {
    var front, last := steps[..|steps| - 1], steps[|steps| - 1];
    if r in Run(Fresh, ttl, front).value.readings {
      m, k := ReadingStems(ttl, front, r);
      assert steps[..m] == front[..m];
    } else {
      m := |steps| - 1;
      k := EntryStems(ttl, front, r.id);
    }
  }

  /**
   In every interleaving: what GetSchema returns was registered at most the time to live before its
   age is tested, and was the current entry of its id when it was read.
   */
  lemma NeverStale(ttl: int, steps: seq<Step>, r: Reading, now: int)
    requires Run(Fresh, ttl, steps).Some? && r in Run(Fresh, ttl, steps).value.readings
    requires Returns(ttl, r, now).Some?
    ensures exists m: nat, k: nat :: ReadAt(steps, m, k, r) && steps[k] == Register(r.id, Returns(ttl, r, now).value, r.at)
                           && now - r.at <= ttl
  {
    var m, k := ReadingStems(ttl, steps, r);
    assert steps[..m][k] == steps[k];
  }

  // ----- When a registration lasts -----

  /** Steps that neither register nor unregister `id`, and whose tests and cleanups fall within the entry's life. */
  ghost predicate LeavesAlone(steps: seq<Step>, id: string, until: int) {
    forall k :: 0 <= k < |steps| ==>
      match steps[k]
      case Register(i, _, _) => i != id
      case Unregister(i) => i != id
      case Test(_, now) => now <= until
      case ClearCache(now) => now <= until
      case _ => true
  }

  ghost predicate Holds(s: State, id: string, schema: Schema, at: int) {
    id in s.schemas && s.schemas[id] == schema && id in s.cache && s.cache[id] == at
  }

  /** No call in flight holds a reading of `id` from before `at`. */
  ghost predicate NoOldReading(s: State, id: string, at: int) {
    forall r :: r in s.readings && r.id == id ==> r.at >= at
  }

  /** Neither a deletion of `id` nor an old reading of it is under way. */
  ghost predicate Unthreatened(s: State, ttl: int, id: string, at: int) {
    id !in s.expiring && (ttl >= 0 ==> NoOldReading(s, id, at))
  }

  lemma {:induction false} ClockAdvances(steps: seq<Step>, from: int)
    requires InTime(steps, from)
    ensures from <= Now(steps, from)
  {
    if steps != [] { ClockAdvances(steps[..|steps| - 1], from); }
  }

  lemma StepSpares(s: State, ttl: int, id: string, schema: Schema, at: int, step: Step)
    requires Holds(s, id, schema, at) && Unthreatened(s, ttl, id, at) && Enabled(s, step)
    requires LeavesAlone([step], id, at + ttl) && (Clocked(step) ==> at <= step.now)
    ensures Holds(Next(s, ttl, step), id, schema, at) && Unthreatened(Next(s, ttl, step), ttl, id, at)
  {
    assert [step][0] == step;
    if ttl >= 0 { NewReadings(s, ttl, id, schema, at, step); }
  }

  /** A step adds no reading of the entry but of the entry itself. */
  lemma NewReadings(s: State, ttl: int, id: string, schema: Schema, at: int, step: Step)
    requires Holds(s, id, schema, at) && NoOldReading(s, id, at)
    ensures NoOldReading(Next(s, ttl, step), id, at)
  {
    forall r | r in Next(s, ttl, step).readings && r.id == id ensures r.at >= at {
      if r !in s.readings { assert r == Reading(id, schema, at); }
    }
  }

  lemma {:induction false} Survives(s: State, ttl: int, id: string, schema: Schema, at: int, steps: seq<Step>)
    requires Holds(s, id, schema, at) && Unthreatened(s, ttl, id, at)
    requires LeavesAlone(steps, id, at + ttl) && InTime(steps, at) && Run(s, ttl, steps).Some?
    ensures Holds(Run(s, ttl, steps).value, id, schema, at) && Unthreatened(Run(s, ttl, steps).value, ttl, id, at)
  {
    if steps != [] {
      var front, last := steps[..|steps| - 1], steps[|steps| - 1];
      assert LeavesAlone(front, id, at + ttl) by {
        assert forall k :: 0 <= k < |front| ==> front[k] == steps[k];
      }
      Survives(s, ttl, id, schema, at, front);
      ClockAdvances(front, at);
      assert LeavesAlone([last], id, at + ttl);
      StepSpares(Run(s, ttl, front).value, ttl, id, schema, at, last);
    }
  }

  /** The registration outlives the steps. */
  ghost predicate Outlives(s: State, ttl: int, id: string, schema: Schema, at: int, steps: seq<Step>) {
    LeavesAlone(steps, id, at + ttl) && InTime(steps, at) && Run(s, ttl, steps).Some? ==>
      Holds(Run(s, ttl, steps).value, id, schema, at)
  }

  /**
   Exactly when a fresh registration is safe: on a clock that does not run backwards it outlives
   everything that neither registers nor unregisters the id within its time to live, if and only if no
   GetSchema is waiting to delete the id and, unless the time to live is negative and no test can fall
   within it, no GetSchema in flight holds a reading of the id from before the registration.
   */
  lemma RegistrationSafeIff(s: State, ttl: int, id: string, schema: Schema, now: int)
    ensures var s' := Next(s, ttl, Register(id, schema, now));
            (forall steps :: Outlives(s', ttl, id, schema, now, steps)) <==> Unthreatened(s, ttl, id, now)
  {
    var s' := Next(s, ttl, Register(id, schema, now));
    if Unthreatened(s, ttl, id, now) {
      forall steps ensures Outlives(s', ttl, id, schema, now, steps) {
        if LeavesAlone(steps, id, now + ttl) && InTime(steps, now) && Run(s', ttl, steps).Some? {
          Survives(s', ttl, id, schema, now, steps);
        }
      }
    } else if id in s.expiring {
      DropLoses(s', ttl, id, schema, now);
    } else {
      var r :| r in s.readings && r.id == id && r.at < now;
      ReadingLoses(s', ttl, r, schema, now);
    }
  }

  lemma DropLoses(s: State, ttl: int, id: string, schema: Schema, at: int)
    requires id in s.expiring
    ensures !Outlives(s, ttl, id, schema, at, [Drop(id)])
  {
    var drop := Drop(id);
    assert Run(s, ttl, []) == Some(s) && InTime([], at);
    assert [] + [drop] == [drop];
    RunPush(s, ttl, [], s, drop);
    InTimePush([], at, drop);
  }

  /** The test of an old reading at the end of the new entry's life deletes the new entry. */
  lemma ReadingLoses(s: State, ttl: int, r: Reading, schema: Schema, at: int)
    requires ttl >= 0 && r in s.readings && r.at < at
    ensures !Outlives(s, ttl, r.id, schema, at, [Test(r, at + ttl), Drop(r.id)])
  {
    var test, drop := Test(r, at + ttl), Drop(r.id);
    var s' := Next(s, ttl, test);
    assert Run(s, ttl, []) == Some(s) && InTime([], at) && Now([], at) == at;
    assert [] + [test] == [test] && [test] + [drop] == [test, drop];
    RunPush(s, ttl, [], s, test);
    RunPush(s, ttl, [test], s', drop);
    InTimePush([], at, test);
    InTimePush([test], at, drop);
  }

  lemma RunPush(start: State, ttl: int, steps: seq<Step>, s: State, step: Step)
    requires Run(start, ttl, steps) == Some(s) && Enabled(s, step)
    ensures Run(start, ttl, steps + [step]) == Some(Next(s, ttl, step))
  {
    assert (steps + [step])[..|steps|] == steps;
  }

  lemma InTimePush(steps: seq<Step>, from: int, step: Step)
    requires InTime(steps, from) && (Clocked(step) ==> Now(steps, from) <= step.now)
    ensures InTime(steps + [step], from)
    ensures Now(steps + [step], from) == if Clocked(step) then step.now else Now(steps, from)
  {
    assert (steps + [step])[..|steps|] == steps;
  }

  /** A run on a clock from 0. */
  ghost predicate Reached(ttl: int, steps: seq<Step>, s: State, now: int) {
    Run(Fresh, ttl, steps) == Some(s) && InTime(steps, 0) && Now(steps, 0) == now
  }

  lemma Reach(ttl: int, steps: seq<Step>, s: State, now: int, step: Step)
    requires Reached(ttl, steps, s, now) && Enabled(s, step) && (Clocked(step) ==> now <= step.now)
    ensures Reached(ttl, steps + [step], Next(s, ttl, step), if Clocked(step) then step.now else now)
  {
    RunPush(Fresh, ttl, steps, s, step);
    InTimePush(steps, 0, step);
  }

  lemma ReachFirst(ttl: int, id: string, schema: Schema)
    requires ttl >= 0
    ensures var s := Next(Next(Fresh, ttl, Register(id, schema, 0)), ttl, Read(id));
            Reached(ttl, [Register(id, schema, 0), Read(id)], s, 0) && s.readings == multiset{Reading(id, schema, 0)}
  {
    var register, read := Register(id, schema, 0), Read(id);
    assert Reached(ttl, [], Fresh, 0);
    assert [] + [register] == [register] && [register] + [read] == [register, read];
    Reach(ttl, [], Fresh, 0, register);
    Reach(ttl, [register], Next(Fresh, ttl, register), 0, read);
  }

  /** A lookup that found the entry expired deletes the registration that overtook it. */
  lemma RegistrationLost(ttl: int, id: string, first: Schema, second: Schema) returns (steps: seq<Step>, s: State)
    requires ttl >= 0
    ensures Reached(ttl, steps, s, ttl + 1) && Holds(s, id, second, ttl + 1)
    ensures Reached(ttl, steps + [Drop(id)], Next(s, ttl, Drop(id)), ttl + 1) && id !in Next(s, ttl, Drop(id)).schemas
  {
    var r, s0 := Reading(id, first, 0), Next(Next(Fresh, ttl, Register(id, first, 0)), ttl, Read(id));
    var before, test, again := [Register(id, first, 0), Read(id)], Test(r, ttl + 1), Register(id, second, ttl + 1);
    ReachFirst(ttl, id, first);
    var s1 := Next(s0, ttl, test);
    Reach(ttl, before, s0, 0, test);
    Reach(ttl, before + [test], s1, ttl + 1, again);
    steps, s := before + [test] + [again], Next(s1, ttl, again);
    Reach(ttl, steps, s, ttl + 1, Drop(id));
  }

  /**
   A lookup that has only read deletes a registration one nanosecond old: no call has found the id
   expired when it is registered again at the end of its first life.
   */
  lemma FreshRegistrationLost(ttl: int, id: string, first: Schema, second: Schema) returns (steps: seq<Step>, s: State)
    requires ttl >= 1
    ensures Reached(ttl, steps, s, ttl) && Holds(s, id, second, ttl) && id !in s.expiring
    ensures var after := [Test(Reading(id, first, 0), ttl + 1), Drop(id)];
            exists s' :: Reached(ttl, steps + [after[0]] + [after[1]], s', ttl + 1) && id !in s'.schemas
  {
    var r, s0 := Reading(id, first, 0), Next(Next(Fresh, ttl, Register(id, first, 0)), ttl, Read(id));
    var before, test, again := [Register(id, first, 0), Read(id)], Test(r, ttl + 1), Register(id, second, ttl);
    ReachFirst(ttl, id, first);
    Reach(ttl, before, s0, 0, again);
    steps, s := before + [again], Next(s0, ttl, again);
    var s1 := Next(s, ttl, test);
    Reach(ttl, steps, s, ttl, test);
    Reach(ttl, steps + [test], s1, ttl + 1, Drop(id));
  }

  // ----- Sequential use -----

  datatype Op = DoRegister(id: string, schema: Schema, now: int) | DoGet(id: string, now: int) | DoUnregister(id: string) | DoClear(now: int)

  function After(s: State, ttl: int, op: Op): State {
    match op
    case DoRegister(id, schema, now) => Next(s, ttl, Register(id, schema, now))
    case DoGet(id, now) => if id in s.schemas && Expired(s, ttl, id, now) then Without(s, id) else s
    case DoUnregister(id) => Next(s, ttl, Unregister(id))
    case DoClear(now) => Next(s, ttl, ClearCache(now))
  }

  /** A lookup that nothing interrupts makes the steps of the interleaved runs. */
  lemma GetIsSteps(s: State, ttl: int, id: string, now: int)
    requires s.schemas.Keys == s.cache.Keys && id in s.schemas
    ensures var r := Reading(id, s.schemas[id], s.cache[id]);
            var drops := if Returns(ttl, r, now).None? then [Drop(id)] else [];
            && Returns(ttl, r, now) == Answer(s, ttl, id, now)
            && Run(s, ttl, [Read(id)] + [Test(r, now)] + drops) == Some(After(s, ttl, DoGet(id, now)))
  {
    var r := Reading(id, s.schemas[id], s.cache[id]);
    var read, test := Read(id), Test(r, now);
    var s1 := Next(s, ttl, read);
    var s2 := Next(s1, ttl, test);
    assert Run(s, ttl, []) == Some(s) && [] + [read] == [read];
    RunPush(s, ttl, [], s, read);
    RunPush(s, ttl, [read], s1, test);
    assert s2.readings == s.readings;
    if Returns(ttl, r, now).None? {
      RunPush(s, ttl, [read] + [test], s2, Drop(id));
      assert Next(s2, ttl, Drop(id)).expiring == s.expiring;
    } else {
      assert [read] + [test] + [] == [read] + [test];
    }
  }

  /** The answers to the Get calls, in order: the schema or a failure. */
  function Answers(s: State, ttl: int, ops: seq<Op>): seq<Option<Schema>>
    decreases ops
  {
    if ops == [] then []
    else (if ops[0].DoGet? then [Answer(s, ttl, ops[0].id, ops[0].now)] else []) + Answers(After(s, ttl, ops[0]), ttl, ops[1..])
  }

  function Uncleared(ops: seq<Op>): (r: seq<Op>)
    ensures forall op :: op in r <==> op in ops && !op.DoClear?
  {
    if ops == [] then [] else (if ops[0].DoClear? then [] else [ops[0]]) + Uncleared(ops[1..])
  }

  /** A lookup's answer is the next one: the schema, iff it is registered and its time to live has not passed. */
  lemma GetAnswered(s: State, ttl: int, id: string, now: int, rest: seq<Op>)
    ensures var answers := Answers(s, ttl, [DoGet(id, now)] + rest);
            && answers != [] && answers[1..] == Answers(After(s, ttl, DoGet(id, now)), ttl, rest)
            && (answers[0].Some? <==> id in s.schemas && (id in s.cache ==> now - s.cache[id] <= ttl))
            && (answers[0].Some? ==> answers[0].value == s.schemas[id])
  {
    assert ([DoGet(id, now)] + rest)[1..] == rest;
  }

  function Clock(op: Op, from: int): int {
    if op.DoUnregister? then from else op.now
  }

  predicate Timed(from: int, ops: seq<Op>)
    decreases ops
  {
    ops == [] || (from <= Clock(ops[0], from) && Timed(Clock(ops[0], from), ops[1..]))
  }

  ghost predicate Alike(s: State, u: State, ttl: int, now: int) {
    && s.schemas.Keys == s.cache.Keys && u.schemas.Keys == u.cache.Keys
    && forall id, t :: t >= now ==> Answer(s, ttl, id, t) == Answer(u, ttl, id, t)
  }

  lemma Aging(s: State, ttl: int, id: string, t: int, t': int)
    requires t <= t' && Expired(s, ttl, id, t)
    ensures Expired(s, ttl, id, t')
  {
  }

  lemma ClearUnseen(s: State, u: State, ttl: int, now: int, from: int)
    requires Alike(s, u, ttl, from) && from <= now
    ensures Alike(After(s, ttl, DoClear(now)), u, ttl, now)
  {
    var s' := After(s, ttl, DoClear(now));
    forall id, t | t >= now ensures Answer(s', ttl, id, t) == Answer(u, ttl, id, t) {
      assert Answer(s, ttl, id, t) == Answer(u, ttl, id, t);
      if Expired(s, ttl, id, now) { Aging(s, ttl, id, now, t); }
    }
  }

  lemma WriteAlike(s: State, u: State, ttl: int, op: Op, from: int)
    requires Alike(s, u, ttl, from) && (op.DoRegister? || op.DoUnregister?) && from <= Clock(op, from)
    ensures Alike(After(s, ttl, op), After(u, ttl, op), ttl, Clock(op, from))
  {
    var now, s', u' := Clock(op, from), After(s, ttl, op), After(u, ttl, op);
    forall id, t | t >= now ensures Answer(s', ttl, id, t) == Answer(u', ttl, id, t) {
      assert Answer(s, ttl, id, t) == Answer(u, ttl, id, t);
    }
  }

  lemma GetAlike(s: State, u: State, ttl: int, id: string, now: int, from: int)
    requires Alike(s, u, ttl, from) && from <= now
    ensures Alike(After(s, ttl, DoGet(id, now)), After(u, ttl, DoGet(id, now)), ttl, now)
    ensures Answer(s, ttl, id, now) == Answer(u, ttl, id, now)
  {
    GetUnseen(s, ttl, id, now);
    GetUnseen(u, ttl, id, now);
  }

  lemma StepAlike(s: State, u: State, ttl: int, op: Op, from: int)
    requires Alike(s, u, ttl, from) && !op.DoClear? && from <= Clock(op, from)
    ensures Alike(After(s, ttl, op), After(u, ttl, op), ttl, Clock(op, from))
    ensures op.DoGet? ==> Answer(s, ttl, op.id, op.now) == Answer(u, ttl, op.id, op.now)
  {
    if op.DoGet? {
      GetAlike(s, u, ttl, op.id, op.now, from);
    } else {
      WriteAlike(s, u, ttl, op, from);
    }
  }

  /** A lookup changes no later answer. */
  lemma GetUnseen(s: State, ttl: int, id: string, now: int)
    requires s.schemas.Keys == s.cache.Keys
    ensures var s' := After(s, ttl, DoGet(id, now));
            && s'.schemas.Keys == s'.cache.Keys
            && forall i, t :: t >= now ==> Answer(s', ttl, i, t) == Answer(s, ttl, i, t)
  {
    var s' := After(s, ttl, DoGet(id, now));
    forall i, t | t >= now ensures Answer(s', ttl, i, t) == Answer(s, ttl, i, t) {
      if Expired(s, ttl, id, now) { Aging(s, ttl, id, now, t); }
    }
  }

  /**
   In sequential use clearing the cache, anywhere and any number of times, never changes whether a
   later GetSchema succeeds nor what it returns.
   */
  lemma {:induction false} ClearingUnseen(s: State, u: State, ttl: int, from: int, ops: seq<Op>)
    requires Alike(s, u, ttl, from) && Timed(from, ops)
    ensures Answers(s, ttl, ops) == Answers(u, ttl, Uncleared(ops))
    decreases ops
  {
    if ops != [] {
      var op, rest := ops[0], ops[1..];
      if op.DoClear? {
        ClearUnseen(s, u, ttl, op.now, from);
        ClearingUnseen(After(s, ttl, op), u, ttl, op.now, rest);
        assert Uncleared(ops) == Uncleared(rest);
      } else {
        StepAlike(s, u, ttl, op, from);
        ClearingUnseen(After(s, ttl, op), After(u, ttl, op), ttl, Clock(op, from), rest);
        assert Uncleared(ops) == [op] + Uncleared(rest);
        assert ([op] + Uncleared(rest))[1..] == Uncleared(rest);
      }
    }
  }
}
