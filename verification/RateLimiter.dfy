/**
 The per-key rate limiter with eviction of stale keys. The token bucket underneath is the library's,
 taken as documented: it starts full, refills at the given rate up to the burst, an allowed call
 takes one token and a denied call nothing. Tokens are counted in billionths, so that a rate in
 tokens per second is a whole number of billionths per nanosecond. Allow is atomic. The cleanup is
 not: it reads the clock, visits the access times one by one, then deletes the collected keys one by
 one, first the limiter and then the access time, and calls may come between any two of these.
 */
module RateLimiter {
  import opened Prelude
  import opened Sequences

  const TOKEN: int := 1_000_000_000

  datatype Limits = Limits(requestsPerSecond: nat, burst: nat, staleThreshold: nat)

  datatype Bucket = Bucket(tokens: int, last: int)

  datatype State = State(
    limiters: map<string, Bucket>,
    lastAccess: map<string, int>,
    sweep: int,                   // the clock reading of the current cleanup
    collected: set<string>,       // keys it found stale and has not yet deleted
    leaving: set<string>)         // keys whose limiter is deleted and whose access time is not

  /** `at` is the clock when the bucket decides, `stamped` when the access time is recorded. */
  datatype Op =
    | Allow(key: string, at: int, stamped: int)
    | Begin(now: int)
    | Visit(key: string)
    | Evict(key: string, at: int)
    | Forget(key: string)

  function Empty(now: int): State {
    State(map[], map[], now, {}, {})
  }

  function Full(l: Limits): int {
    l.burst * TOKEN
  }

  function Level(l: Limits, b: Bucket, t: int): int {
    var refilled := b.tokens + (t - b.last) * l.requestsPerSecond;
    if refilled > Full(l) then Full(l) else refilled
  }

  /** What key `k` can spend at `t`; a key without limiter would get a full one. */
  function LevelOf(l: Limits, s: State, k: string, t: int): int {
    if k in s.limiters then Level(l, s.limiters[k], t) else Full(l)
  }

  predicate Admits(l: Limits, s: State, k: string, t: int) {
    LevelOf(l, s, k, t) >= TOKEN
  }

  predicate Stale(l: Limits, s: State, k: string) {
    k in s.lastAccess && s.sweep - s.lastAccess[k] > l.staleThreshold
  }

  /** The limiters after an Allow: a key's first call makes a full one, an admitted call spends. */
  function Spent(l: Limits, s: State, k: string, at: int): map<string, Bucket> {
    if k == "" then s.limiters
    else if Admits(l, s, k, at) then s.limiters[k := Bucket(LevelOf(l, s, k, at) - TOKEN, at)]
    else if k in s.limiters then s.limiters
    else s.limiters[k := Bucket(Full(l), at)]
  }

  function Next(l: Limits, s: State, op: Op): State {
    match op
    case Allow(k, at, stamped) =>
      s.(limiters := Spent(l, s, k, at),
         lastAccess := if k != "" && Admits(l, s, k, at) then s.lastAccess[k := stamped] else s.lastAccess)
    case Begin(now) => s.(sweep := now)
    case Visit(k) => if Stale(l, s, k) then s.(collected := s.collected + {k}) else s
    case Evict(k, _) =>
      if k in s.collected
      then s.(limiters := s.limiters - {k}, collected := s.collected - {k}, leaving := s.leaving + {k})
      else s
    case Forget(k) =>
      if k in s.leaving then s.(lastAccess := s.lastAccess - {k}, leaving := s.leaving - {k}) else s
  }

  // ----- Runs -----

  function Run(l: Limits, s: State, ops: seq<Op>): State
    decreases ops
  {
    if ops == [] then s else Run(l, Next(l, s, ops[0]), ops[1..])
  }

  /** The answers to the Allow calls with a key, in order. */
  function Answers(l: Limits, s: State, ops: seq<Op>): seq<bool>
    decreases ops
  {
    if ops == [] then [] else AnswerTo(l, s, ops[0]) + Answers(l, Next(l, s, ops[0]), ops[1..])
  }

  function AnswerTo(l: Limits, s: State, op: Op): seq<bool> {
    if op.Allow? && op.key != "" then [Admits(l, s, op.key, op.at)] else []
  }

  /** The calls of a history, without its cleanups. */
  function Calls(ops: seq<Op>): seq<Op> {
    if ops == [] then [] else (if ops[0].Allow? then [ops[0]] else []) + Calls(ops[1..])
  }

  /** The clock after an operation. */
  function Clock(op: Op, from: int): int {
    match op
    case Allow(_, _, stamped) => stamped
    case Begin(now) => now
    case Evict(_, at) => at
    case _ => from
  }

  predicate Timed(from: int, ops: seq<Op>)
    decreases ops
  {
    ops == [] ||
    ((if ops[0].Allow? then from <= ops[0].at <= ops[0].stamped else from <= Clock(ops[0], from))
     && Timed(Clock(ops[0], from), ops[1..]))
  }

  function End(from: int, ops: seq<Op>): int
    decreases ops
  {
    if ops == [] then from else End(Clock(ops[0], from), ops[1..])
  }

  lemma {:induction false} RunConcat(l: Limits, s: State, ops: seq<Op>, more: seq<Op>)
    ensures Run(l, s, ops + more) == Run(l, Run(l, s, ops), more)
    decreases ops
  {
    if ops == [] {
      assert ops + more == more;
    } else {
      RunConcat(l, Next(l, s, ops[0]), ops[1..], more);
      assert (ops + more)[1..] == ops[1..] + more;
    }
  }

  lemma RunPush(l: Limits, s: State, ops: seq<Op>, op: Op)
    ensures Run(l, s, ops + [op]) == Next(l, Run(l, s, ops), op)
  {
    RunConcat(l, s, ops, [op]);
    assert [op][1..] == [];
    assert Run(l, Next(l, Run(l, s, ops), op), []) == Next(l, Run(l, s, ops), op);
  }

  // ----- The object -----

  datatype LimiterError = EmptyKey

  ghost predicate OnlySweeps(ops: seq<Op>) {
    forall i :: 0 <= i < |ops| ==> !ops[i].Allow?
  }

  class TokenBucketLimiter {
    var limiters: map<string, Bucket>
    var lastAccess: map<string, int>
    const limits: Limits
    ghost var sweep: int
    ghost var collected: set<string>
    ghost var leaving: set<string>

    ghost function Value(): State
      reads this
    {
      State(limiters, lastAccess, sweep, collected, leaving)
    }

    constructor (l: Limits, now: int)
      ensures limits == l && Value() == Empty(now)
    {
      limits, limiters, lastAccess := l, map[], map[];
      sweep, collected, leaving := now, {}, {};
    }

    method AllowKey(key: string, at: int, stamped: int) returns (r: Result<bool, LimiterError>)
      modifies this`limiters, this`lastAccess
      ensures Value() == Next(limits, old(Value()), Allow(key, at, stamped))
      ensures r == if key == "" then Err(EmptyKey) else Ok(old(Admits(limits, Value(), key, at)))
    {
      if key == "" { return Err(EmptyKey); }
      var limiter := GetOrCreate(key, at);
      var level := Level(limits, limiter, at);
      var allowed := level >= TOKEN;
      if allowed {
        limiters := limiters[key := Bucket(level - TOKEN, at)];
        lastAccess := lastAccess[key := stamped];
      }
      return Ok(allowed);
    }

    /** A key's limiter; a new one is full. */
    method GetOrCreate(key: string, at: int) returns (b: Bucket)
      modifies this`limiters
      ensures key in limiters && limiters[key] == b && Level(limits, b, at) == old(LevelOf(limits, Value(), key, at))
      ensures limiters == if key in old(limiters) then old(limiters) else old(limiters)[key := Bucket(Full(limits), at)]
    {
      if key !in limiters { limiters := limiters[key := Bucket(Full(limits), at)]; }
      b := limiters[key];
    }

    /**
     The cleanup when no call comes between: it makes the steps of the run theorems, and in the end
     exactly the stale keys are gone from both maps.
     */
    method CleanupStale(now: int, finished: int) returns (ghost ops: seq<Op>)
      requires collected == {} && leaving == {}
      modifies this
      ensures OnlySweeps(ops) && Value() == Run(limits, old(Value()), ops)
      ensures collected == {} && leaving == {}
      ensures limiters == old(limiters) - old(StaleKeys(now)) && lastAccess == old(lastAccess) - old(StaleKeys(now))
    {
      var keysToDelete;
      ghost var first, second;
      keysToDelete, first := Collect(now);
      second := Delete(keysToDelete, finished);
      RunConcat(limits, old(Value()), first, second);
      ops := first + second;
    }

    ghost function StaleKeys(now: int): set<string>
      reads this
    {
      set k | k in lastAccess && now - lastAccess[k] > limits.staleThreshold
    }

    /** Visits every access time once, in any order. */
    method Collect(now: int) returns (stale: set<string>, ghost ops: seq<Op>)
      requires collected == {}
      modifies this`sweep, this`collected
      ensures stale == old(StaleKeys(now)) && collected == stale
      ensures OnlySweeps(ops) && Value() == Run(limits, old(Value()), ops)
    {
      var todo := lastAccess.Keys;
      stale := {};
      sweep := now;
      ops := [Begin(now)];
      RunPush(limits, old(Value()), [], Begin(now));
      assert [] + [Begin(now)] == [Begin(now)];
      while todo != {}
        invariant todo <= lastAccess.Keys && sweep == now && collected == stale && OnlySweeps(ops)
        invariant stale == set k | k in lastAccess && k !in todo && now - lastAccess[k] > limits.staleThreshold
        invariant Value() == Run(limits, old(Value()), ops)
      {
        var k :| k in todo;
        RunPush(limits, old(Value()), ops, Visit(k));
        if now - lastAccess[k] > limits.staleThreshold {
          stale := stale + {k};
          collected := collected + {k};
        }
        ops := ops + [Visit(k)];
        todo := todo - {k};
      }
    }

    method Delete(stale: set<string>, at: int) returns (ghost ops: seq<Op>)
      requires collected == stale && leaving == {}
      modifies this`limiters, this`lastAccess, this`collected, this`leaving
      ensures limiters == old(limiters) - stale && lastAccess == old(lastAccess) - stale
      ensures collected == {} && leaving == {}
      ensures OnlySweeps(ops) && Value() == Run(limits, old(Value()), ops)
    {
      var todo := stale;
      ops := [];
      while todo != {}
        invariant todo <= stale && collected == todo && leaving == {} && OnlySweeps(ops)
        invariant limiters == old(limiters) - (stale - todo) && lastAccess == old(lastAccess) - (stale - todo)
        invariant Value() == Run(limits, old(Value()), ops)
      {
        var k :| k in todo;
        RunPush(limits, old(Value()), ops, Evict(k, at));
        RunPush(limits, old(Value()), ops + [Evict(k, at)], Forget(k));
        DeleteOne(k, at);
        ops := ops + [Evict(k, at)] + [Forget(k)];
        todo := todo - {k};
      }
    }

    method DeleteOne(k: string, at: int)
      requires k in collected && leaving == {}
      modifies this`limiters, this`lastAccess, this`collected, this`leaving
      ensures limiters == old(limiters) - {k} && lastAccess == old(lastAccess) - {k}
      ensures collected == old(collected) - {k} && leaving == {}
      ensures Value() == Next(limits, Next(limits, old(Value()), Evict(k, at)), Forget(k))
    {
      limiters := limiters - {k};
      collected, leaving := collected - {k}, leaving + {k};
      lastAccess := lastAccess - {k};
      leaving := leaving - {k};
    }
  }

  // ----- When a cleanup cannot be observed -----

  /** A full refill takes no longer than a key must idle to be collected: a deployment can check this. */
  predicate IdleRefills(l: Limits) {
    (l.staleThreshold + 1) * l.requestsPerSecond >= Full(l)
  }

  /** Every limiter that is deleted is full at that moment. */
  predicate Harmless(l: Limits, s: State, ops: seq<Op>)
    decreases ops
  {
    ops == [] ||
    ((ops[0].Evict? && ops[0].key in s.collected ==> LevelOf(l, s, ops[0].key, ops[0].at) == Full(l))
     && Harmless(l, Next(l, s, ops[0]), ops[1..]))
  }

  /** No call is admitted for a key between its collection and its deletion. */
  predicate Undisturbed(l: Limits, s: State, ops: seq<Op>)
    decreases ops
  {
    ops == [] ||
    ((ops[0].Allow? && ops[0].key in s.collected ==> !Admits(l, s, ops[0].key, ops[0].at))
     && Undisturbed(l, Next(l, s, ops[0]), ops[1..]))
  }

  /** A bucket's last spending is no later than its key's access time, unless it is full anyway. */
  ghost predicate Recorded(l: Limits, s: State, now: int) {
    && s.sweep <= now && "" !in s.limiters
    && (forall k :: k in s.limiters ==> 0 <= s.limiters[k].tokens && s.limiters[k].last <= now)
    && (forall k :: k in s.lastAccess ==> s.lastAccess[k] <= now)
    && (forall k :: k in s.limiters && k in s.lastAccess ==>
          s.limiters[k].tokens == Full(l) || s.limiters[k].last <= s.lastAccess[k])
  }

  ghost predicate CollectedFull(l: Limits, s: State, now: int) {
    forall k :: k in s.collected ==> LevelOf(l, s, k, now) == Full(l)
  }

  /** From `now` on no key can tell the two states apart. */
  ghost predicate Alike(l: Limits, s: State, u: State, now: int) {
    forall k, t :: t >= now ==> LevelOf(l, s, k, t) == LevelOf(l, u, k, t)
  }

  lemma MulMono(a: int, b: int, r: nat)
    requires a <= b
    ensures a * r <= b * r
  {
  }

  lemma RecordedKept(l: Limits, s: State, op: Op, from: int)
    requires Recorded(l, s, from) && Timed(from, [op])
    ensures Recorded(l, Next(l, s, op), Clock(op, from))
  {
  }

  /** A full bucket stays full. */
  lemma StaysFull(l: Limits, s: State, k: string, t: int, t': int)
    requires t <= t' && LevelOf(l, s, k, t) == Full(l)
    ensures LevelOf(l, s, k, t') == Full(l)
  {
    if k in s.limiters { MulMono(t - s.limiters[k].last, t' - s.limiters[k].last, l.requestsPerSecond); }
  }

  /** A key found stale has refilled completely. */
  lemma StaleIsFull(l: Limits, s: State, k: string, now: int)
    requires IdleRefills(l) && Recorded(l, s, now) && Stale(l, s, k)
    ensures LevelOf(l, s, k, now) == Full(l)
  {
    if k in s.limiters {
      var idle := now - s.limiters[k].last;
      MulMono(0, idle, l.requestsPerSecond);
      if idle >= l.staleThreshold + 1 { MulMono(l.staleThreshold + 1, idle, l.requestsPerSecond); }
    }
  }

  /** Between collection and deletion a key stays full unless a call is admitted for it. */
  lemma CollectedStaysFull(l: Limits, s: State, op: Op, from: int, k: string)
    requires IdleRefills(l) && Recorded(l, s, from) && Timed(from, [op]) && CollectedFull(l, s, from)
    requires Undisturbed(l, s, [op]) && k in Next(l, s, op).collected
    ensures LevelOf(l, Next(l, s, op), k, Clock(op, from)) == Full(l)
  {
    if k in s.collected {
      StaysFull(l, s, k, from, Clock(op, from));
      if op.Allow? && op.key == k && k !in s.limiters { MulMono(0, op.stamped - op.at, l.requestsPerSecond); }
    } else {
      StaleIsFull(l, s, k, from);
    }
  }

  lemma {:induction false} UndisturbedIsHarmless(l: Limits, s: State, from: int, ops: seq<Op>)
    requires IdleRefills(l) && Timed(from, ops) && Recorded(l, s, from) && CollectedFull(l, s, from)
    requires Undisturbed(l, s, ops)
    ensures Harmless(l, s, ops)
    decreases ops
  {
    if ops != [] {
      var op, s' := ops[0], Next(l, s, ops[0]);
      RecordedKept(l, s, op, from);
      forall k | k in s'.collected ensures LevelOf(l, s', k, Clock(op, from)) == Full(l) {
        CollectedStaysFull(l, s, op, from, k);
      }
      if op.Evict? && op.key in s.collected { StaysFull(l, s, op.key, from, op.at); }
      UndisturbedIsHarmless(l, s', Clock(op, from), ops[1..]);
    }
  }

  lemma AllowAlike(l: Limits, s: State, u: State, op: Op, from: int)
    requires op.Allow? && Timed(from, [op]) && Alike(l, s, u, from)
    ensures AnswerTo(l, s, op) == AnswerTo(l, u, op)
    ensures Alike(l, Next(l, s, op), Next(l, u, op), op.stamped)
  {
    assert LevelOf(l, s, op.key, op.at) == LevelOf(l, u, op.key, op.at);
    forall k, t | t >= op.stamped ensures LevelOf(l, Next(l, s, op), k, t) == LevelOf(l, Next(l, u, op), k, t) {
      assert LevelOf(l, s, k, t) == LevelOf(l, u, k, t);
      MulMono(0, t - op.at, l.requestsPerSecond);
    }
  }

  lemma SweepAlike(l: Limits, s: State, u: State, op: Op, from: int)
    requires !op.Allow? && Timed(from, [op]) && Alike(l, s, u, from) && Harmless(l, s, [op])
    ensures Alike(l, Next(l, s, op), u, Clock(op, from))
  {
    forall k, t | t >= Clock(op, from) ensures LevelOf(l, Next(l, s, op), k, t) == LevelOf(l, u, k, t) {
      assert LevelOf(l, s, k, t) == LevelOf(l, u, k, t);
      if op.Evict? && op.key == k && k in s.collected { StaysFull(l, s, k, op.at, t); }
    }
  }

  /** A harmless history answers every call, and leaves every key, as its calls alone would. */
  lemma {:induction false} AnswersAlike(l: Limits, s: State, u: State, from: int, ops: seq<Op>)
    requires Timed(from, ops) && Harmless(l, s, ops) && Alike(l, s, u, from)
    ensures Answers(l, s, ops) == Answers(l, u, Calls(ops))
    ensures Alike(l, Run(l, s, ops), Run(l, u, Calls(ops)), End(from, ops))
    decreases ops
  {
    if ops != [] {
      var op, rest := ops[0], ops[1..];
      if op.Allow? {
        AllowAlike(l, s, u, op, from);
        AnswersAlike(l, Next(l, s, op), Next(l, u, op), op.stamped, rest);
        assert ([op] + Calls(rest))[1..] == Calls(rest);
      } else {
        SweepAlike(l, s, u, op, from);
        AnswersAlike(l, Next(l, s, op), u, Clock(op, from), rest);
        assert Calls(ops) == Calls(rest);
      }
    }
  }

  // ----- What a deletion too early shows -----

  function Burst(k: string, t: int, n: nat): seq<Op> {
    if n == 0 then [] else [Allow(k, t, t)] + Burst(k, t, n - 1)
  }

  lemma {:induction false} BurstTimed(k: string, t: int, n: nat)
    ensures Timed(t, Burst(k, t, n)) && End(t, Burst(k, t, n)) == t && Calls(Burst(k, t, n)) == Burst(k, t, n)
  {
    if n > 0 {
      BurstTimed(k, t, n - 1);
      assert Burst(k, t, n)[1..] == Burst(k, t, n - 1);
    }
  }

  ghost predicate AllTrue(answers: seq<bool>) {
    forall i :: 0 <= i < |answers| ==> answers[i]
  }

  lemma AllTrueCons(first: bool, rest: seq<bool>)
    ensures AllTrue([first] + rest) <==> first && AllTrue(rest)
  {
    assert ([first] + rest)[0] == first;
    assert forall i :: 0 <= i < |rest| ==> ([first] + rest)[i + 1] == rest[i];
  }

  /** One call at an instant takes one token if it is there. */
  lemma OneCall(l: Limits, s: State, k: string, t: int)
    requires k != ""
    ensures Admits(l, s, k, t) ==> LevelOf(l, Next(l, s, Allow(k, t, t)), k, t) == LevelOf(l, s, k, t) - TOKEN
    ensures !Admits(l, s, k, t) ==> LevelOf(l, Next(l, s, Allow(k, t, t)), k, t) == LevelOf(l, s, k, t)
  {
  }

  lemma BurstStep(l: Limits, s: State, k: string, t: int, n: nat)
    requires k != "" && n > 0
    ensures Answers(l, s, Burst(k, t, n))
         == [Admits(l, s, k, t)] + Answers(l, Next(l, s, Allow(k, t, t)), Burst(k, t, n - 1))
    ensures Run(l, s, Burst(k, t, n)) == Run(l, Next(l, s, Allow(k, t, t)), Burst(k, t, n - 1))
  {
    assert Burst(k, t, n)[1..] == Burst(k, t, n - 1);
  }

  /** A burst of calls at one instant is answered yes throughout iff the level covers it. */
  lemma {:induction false} BurstAnswers(l: Limits, s: State, k: string, t: int, n: nat)
    requires k != ""
    ensures AllTrue(Answers(l, s, Burst(k, t, n))) <==> n == 0 || LevelOf(l, s, k, t) >= n * TOKEN
    decreases n
  {
    if n > 0 {
      var s1 := Next(l, s, Allow(k, t, t));
      OneCall(l, s, k, t);
      BurstStep(l, s, k, t, n);
      BurstAnswers(l, s1, k, t, n - 1);
      AllTrueCons(Admits(l, s, k, t), Answers(l, s1, Burst(k, t, n - 1)));
    }
  }

  /** A burst takes what is there and touches no other part of the state but the key's access time. */
  lemma {:induction false} BurstSpends(l: Limits, s: State, k: string, t: int, n: nat)
    requires k != ""
    ensures var s' := Run(l, s, Burst(k, t, n));
            && LevelOf(l, s', k, t) <= LevelOf(l, s, k, t)
            && (n > 0 ==> LevelOf(l, s', k, t) < LevelOf(l, s, k, t) || LevelOf(l, s', k, t) < TOKEN)
            && (LevelOf(l, s, k, t) >= n * TOKEN ==> LevelOf(l, s', k, t) == LevelOf(l, s, k, t) - n * TOKEN)
            && s'.collected == s.collected && s'.sweep == s.sweep
    decreases n
  {
    if n > 0 {
      OneCall(l, s, k, t);
      BurstStep(l, s, k, t, n);
      BurstSpends(l, Next(l, s, Allow(k, t, t)), k, t, n - 1);
    }
  }

  /**
   Exactly when deleting a collected limiter is unobservable: every harmless continuation answers as
   the calls alone would, if and only if the limiter is full when it is deleted.
   */
  lemma EvictUnseenIff(l: Limits, s: State, u: State, k: string, t: int)
    requires k != "" && k in s.collected && Alike(l, s, u, t) && Recorded(l, s, t)
    ensures (forall more :: Timed(t, more) && Harmless(l, Next(l, s, Evict(k, t)), more) ==>
               Answers(l, Next(l, s, Evict(k, t)), more) == Answers(l, u, Calls(more)))
       <==> LevelOf(l, s, k, t) == Full(l)
  {
    var s' := Next(l, s, Evict(k, t));
    if LevelOf(l, s, k, t) == Full(l) {
      SweepAlike(l, s, u, Evict(k, t), t);
      forall more | Timed(t, more) && Harmless(l, s', more) ensures Answers(l, s', more) == Answers(l, u, Calls(more)) {
        AnswersAlike(l, s', u, t, more);
      }
    } else {
      EarlyIsSeen(l, s, u, k, t);
    }
  }

  lemma {:induction false} BurstHarmless(l: Limits, s: State, k: string, t: int, n: nat)
    ensures Harmless(l, s, Burst(k, t, n))
    decreases n
  {
    if n > 0 {
      BurstHarmless(l, Next(l, s, Allow(k, t, t)), k, t, n - 1);
      assert Burst(k, t, n)[1..] == Burst(k, t, n - 1);
    }
  }

  /** A burst right after the deletion of a limiter that was not full tells. */
  lemma EarlyIsSeen(l: Limits, s: State, u: State, k: string, t: int)
    requires k != "" && k in s.collected && Alike(l, s, u, t) && Recorded(l, s, t) && LevelOf(l, s, k, t) != Full(l)
    ensures var again := Burst(k, t, l.burst);
            && Timed(t, again) && Harmless(l, Next(l, s, Evict(k, t)), again) && Calls(again) == again
            && AllTrue(Answers(l, Next(l, s, Evict(k, t)), again)) && !AllTrue(Answers(l, u, again))
  {
    var s' := Next(l, s, Evict(k, t));
    BurstTimed(k, t, l.burst);
    BurstHarmless(l, s', k, t, l.burst);
    BurstAnswers(l, s', k, t, l.burst);
    BurstAnswers(l, u, k, t, l.burst);
    NonNegative(l, s, k, t);
    assert LevelOf(l, u, k, t) == LevelOf(l, s, k, t) < Full(l);
  }

  lemma NonNegative(l: Limits, s: State, k: string, now: int)
    requires Recorded(l, s, now)
    ensures LevelOf(l, s, k, now) >= 0
  {
    if k in s.limiters { MulMono(0, now - s.limiters[k].last, l.requestsPerSecond); }
  }

  // ----- Histories put together -----

  lemma {:induction false} AnswersConcat(l: Limits, s: State, ops: seq<Op>, more: seq<Op>)
    ensures Answers(l, s, ops + more) == Answers(l, s, ops) + Answers(l, Run(l, s, ops), more)
    decreases ops
  {
    if ops == [] {
      assert ops + more == more;
    } else {
      var s' := Next(l, s, ops[0]);
      AnswersConcat(l, s', ops[1..], more);
      assert (ops + more)[1..] == ops[1..] + more;
      Associate(AnswerTo(l, s, ops[0]), Answers(l, s', ops[1..]), Answers(l, Run(l, s', ops[1..]), more));
    }
  }

  lemma {:induction false} CallsConcat(ops: seq<Op>, more: seq<Op>)
    ensures Calls(ops + more) == Calls(ops) + Calls(more)
    decreases ops
  {
    if ops == [] {
      assert ops + more == more;
    } else {
      CallsConcat(ops[1..], more);
      assert (ops + more)[1..] == ops[1..] + more;
      Associate(if ops[0].Allow? then [ops[0]] else [], Calls(ops[1..]), Calls(more));
    }
  }

  lemma {:induction false} TimedConcat(from: int, ops: seq<Op>, more: seq<Op>)
    ensures Timed(from, ops + more) <==> Timed(from, ops) && Timed(End(from, ops), more)
    ensures End(from, ops + more) == End(End(from, ops), more)
    decreases ops
  {
    if ops == [] {
      assert ops + more == more;
    } else {
      TimedConcat(Clock(ops[0], from), ops[1..], more);
      assert (ops + more)[1..] == ops[1..] + more;
    }
  }

  lemma {:induction false} UndisturbedConcat(l: Limits, s: State, ops: seq<Op>, more: seq<Op>)
    ensures Undisturbed(l, s, ops + more) <==> Undisturbed(l, s, ops) && Undisturbed(l, Run(l, s, ops), more)
    decreases ops
  {
    if ops == [] {
      assert ops + more == more;
    } else {
      UndisturbedConcat(l, Next(l, s, ops[0]), ops[1..], more);
      assert (ops + more)[1..] == ops[1..] + more;
    }
  }

  lemma {:induction false} HarmlessConcat(l: Limits, s: State, ops: seq<Op>, more: seq<Op>)
    ensures Harmless(l, s, ops + more) <==> Harmless(l, s, ops) && Harmless(l, Run(l, s, ops), more)
    decreases ops
  {
    if ops == [] {
      assert ops + more == more;
    } else {
      HarmlessConcat(l, Next(l, s, ops[0]), ops[1..], more);
      assert (ops + more)[1..] == ops[1..] + more;
    }
  }

  lemma {:induction false} RunRecorded(l: Limits, s: State, from: int, ops: seq<Op>)
    requires Timed(from, ops) && Recorded(l, s, from)
    ensures from <= End(from, ops) && Recorded(l, Run(l, s, ops), End(from, ops))
    decreases ops
  {
    if ops != [] {
      RecordedKept(l, s, ops[0], from);
      RunRecorded(l, Next(l, s, ops[0]), Clock(ops[0], from), ops[1..]);
    }
  }

  // ----- Exactly when cleanups are unobservable -----

  /** A history on a clock from `from` answers every call as if its cleanups had not happened. */
  predicate Unseen(l: Limits, from: int, ops: seq<Op>) {
    Timed(from, ops) ==> Answers(l, Empty(from), ops) == Answers(l, Empty(from), Calls(ops))
  }

  /** A history that collects a key, and deletes its limiter and calls again while it is not full. */
  function Early(l: Limits, pre: seq<Op>, k: string, t: int): seq<Op> {
    pre + ([Evict(k, t)] + Burst(k, t, l.burst))
  }

  ghost predicate TooEarly(l: Limits, pre: seq<Op>, k: string, t: int) {
    && k != "" && Timed(0, pre) && End(0, pre) == t && Harmless(l, Empty(0), pre)
    && k in Run(l, Empty(0), pre).collected && LevelOf(l, Run(l, Empty(0), pre), k, t) != Full(l)
  }

  lemma EvictThen(l: Limits, s: State, k: string, t: int, more: seq<Op>)
    ensures Answers(l, s, [Evict(k, t)] + more) == Answers(l, Next(l, s, Evict(k, t)), more)
    ensures Calls([Evict(k, t)] + more) == Calls(more)
    ensures Timed(t, [Evict(k, t)] + more) <==> Timed(t, more)
  {
    assert ([Evict(k, t)] + more)[1..] == more;
  }

  lemma EarlyTimed(l: Limits, pre: seq<Op>, k: string, t: int)
    requires Timed(0, pre) && End(0, pre) == t
    ensures Timed(0, Early(l, pre, k, t))
  {
    BurstTimed(k, t, l.burst);
    EvictThen(l, Empty(0), k, t, Burst(k, t, l.burst));
    TimedConcat(0, pre, [Evict(k, t)] + Burst(k, t, l.burst));
  }

  lemma EarlyTells(l: Limits, pre: seq<Op>, k: string, t: int)
    requires TooEarly(l, pre, k, t)
    ensures !Unseen(l, 0, Early(l, pre, k, t))
  {
    var empty, again := Empty(0), Burst(k, t, l.burst);
    var s, u := Run(l, empty, pre), Run(l, empty, Calls(pre));
    EarlyTimed(l, pre, k, t);
    RunRecorded(l, empty, 0, pre);
    AnswersAlike(l, empty, empty, 0, pre);
    EarlyIsSeen(l, s, u, k, t);
    EvictThen(l, s, k, t, again);
    AnswersConcat(l, empty, pre, [Evict(k, t)] + again);
    CallsConcat(pre, [Evict(k, t)] + again);
    AnswersConcat(l, empty, Calls(pre), again);
    SameFront(Answers(l, empty, pre), Answers(l, Next(l, s, Evict(k, t)), again), Answers(l, u, again));
  }

  lemma SameFront<T>(a: seq<T>, b: seq<T>, c: seq<T>)
    ensures a + b == a + c <==> b == c
  {
    if a + b == a + c {
      assert b == (a + b)[|a|..] == (a + c)[|a|..] == c;
    }
  }

  lemma {:induction false} NoEvictIsHarmless(l: Limits, s: State, ops: seq<Op>)
    requires forall i :: 0 <= i < |ops| ==> !ops[i].Evict?
    ensures Harmless(l, s, ops)
    decreases ops
  {
    if ops != [] { NoEvictIsHarmless(l, Next(l, s, ops[0]), ops[1..]); }
  }

  lemma {:induction false} BurstIsCalls(k: string, t: int, n: nat)
    ensures forall i :: 0 <= i < |Burst(k, t, n)| ==> Burst(k, t, n)[i] == Allow(k, t, t)
  {
    if n > 0 { BurstIsCalls(k, t, n - 1); }
  }

  /** The cleanup reads the clock and visits one key. */
  function Gather(k: string, t: int): seq<Op> {
    [Begin(t), Visit(k)]
  }

  lemma Gathered(l: Limits, s: State, k: string, from: int, t: int)
    ensures Run(l, s, Gather(k, t)) == Next(l, Next(l, s, Begin(t)), Visit(k))
    ensures Timed(from, Gather(k, t)) <==> from <= t
    ensures End(from, Gather(k, t)) == t
    ensures Undisturbed(l, s, Gather(k, t))
  {
    var ops, visit, s1 := Gather(k, t), [Visit(k)], Next(l, s, Begin(t));
    assert ops[1..] == visit && visit[1..] == [];
    assert Run(l, s1, visit) == Next(l, s1, Visit(k)) by { assert Run(l, Next(l, s1, Visit(k)), []) == Next(l, s1, Visit(k)); }
    assert Timed(t, visit) by { assert Timed(t, []); }
    assert End(t, visit) == t by { assert End(t, []) == t; }
    assert Undisturbed(l, s1, visit) by { assert Undisturbed(l, Next(l, s1, Visit(k)), []); }
  }

  // A refill that takes longer than the idle time: spend everything, be collected at the first chance.

  function Drained(l: Limits, k: string): seq<Op> {
    Burst(k, 0, l.burst) + Gather(k, l.staleThreshold + 1)
  }

  lemma {:induction false} BurstLeaves(l: Limits, s: State, k: string, t: int, n: nat)
    requires k != "" && n > 0 && LevelOf(l, s, k, t) >= n * TOKEN
    ensures var s' := Run(l, s, Burst(k, t, n));
            && k in s'.limiters && s'.limiters[k] == Bucket(LevelOf(l, s, k, t) - n * TOKEN, t)
            && k in s'.lastAccess && s'.lastAccess[k] == t
    decreases n
  {
    OneCall(l, s, k, t);
    BurstStep(l, s, k, t, n);
    if n > 1 { BurstLeaves(l, Next(l, s, Allow(k, t, t)), k, t, n - 1); }
  }

  lemma DrainedTimed(l: Limits, k: string)
    ensures Timed(0, Drained(l, k)) && End(0, Drained(l, k)) == l.staleThreshold + 1
    ensures Harmless(l, Empty(0), Drained(l, k))
  {
    var t := l.staleThreshold + 1;
    BurstTimed(k, 0, l.burst);
    Gathered(l, Empty(0), k, 0, t);
    TimedConcat(0, Burst(k, 0, l.burst), Gather(k, t));
    BurstIsCalls(k, 0, l.burst);
    NoEvictIsHarmless(l, Empty(0), Drained(l, k));
  }

  lemma DrainedIsTooEarly(l: Limits, k: string)
    requires k != "" && !IdleRefills(l)
    ensures TooEarly(l, Drained(l, k), k, l.staleThreshold + 1)
    ensures Run(l, Empty(0), Drained(l, k)).collected == {k}
  {
    var t, spent := l.staleThreshold + 1, Run(l, Empty(0), Burst(k, 0, l.burst));
    assert Full(l) > 0 by { MulMono(0, t, l.requestsPerSecond); }
    BurstLeaves(l, Empty(0), k, 0, l.burst);
    BurstSpends(l, Empty(0), k, 0, l.burst);
    DrainedTimed(l, k);
    RunConcat(l, Empty(0), Burst(k, 0, l.burst), Gather(k, t));
    Gathered(l, spent, k, 0, t);
  }

  lemma {:induction false} BurstUndisturbed(l: Limits, s: State, k: string, t: int, n: nat)
    requires k !in s.collected
    ensures Undisturbed(l, s, Burst(k, t, n))
    decreases n
  {
    if n > 0 {
      BurstUndisturbed(l, Next(l, s, Allow(k, t, t)), k, t, n - 1);
      assert Burst(k, t, n)[1..] == Burst(k, t, n - 1);
    }
  }

  lemma DrainedUndisturbed(l: Limits, k: string)
    requires k != "" && !IdleRefills(l)
    ensures Undisturbed(l, Empty(0), Early(l, Drained(l, k), k, l.staleThreshold + 1))
  {
    var t, again := l.staleThreshold + 1, Burst(k, l.staleThreshold + 1, l.burst);
    var s := Run(l, Empty(0), Drained(l, k));
    DrainedIsTooEarly(l, k);
    BurstUndisturbed(l, Empty(0), k, 0, l.burst);
    Gathered(l, Run(l, Empty(0), Burst(k, 0, l.burst)), k, 0, t);
    UndisturbedConcat(l, Empty(0), Burst(k, 0, l.burst), Gather(k, t));
    BurstUndisturbed(l, Next(l, s, Evict(k, t)), k, t, l.burst);
    assert ([Evict(k, t)] + again)[1..] == again;
    UndisturbedConcat(l, Empty(0), Drained(l, k), [Evict(k, t)] + again);
  }

  lemma FreshStart(l: Limits, from: int)
    ensures Recorded(l, Empty(from), from) && CollectedFull(l, Empty(from), from)
    ensures Alike(l, Empty(from), Empty(from), from)
  {
  }

  lemma UndisturbedUnseen(l: Limits, from: int, ops: seq<Op>)
    requires IdleRefills(l) && Undisturbed(l, Empty(from), ops)
    ensures Unseen(l, from, ops)
  {
    if Timed(from, ops) {
      FreshStart(l, from);
      UndisturbedIsHarmless(l, Empty(from), from, ops);
      AnswersAlike(l, Empty(from), Empty(from), from, ops);
    }
  }

  /**
   Cleanups that no admitted call disturbs: every such history answers as if there were no cleanups,
   if and only if an idle key refills before it can be collected, (staleThreshold + 1 ns) x rate >= burst.
   */
  lemma EvictionTransparentIff(l: Limits)
    ensures (forall from, ops :: Undisturbed(l, Empty(from), ops) ==> Unseen(l, from, ops)) <==> IdleRefills(l)
  {
    if IdleRefills(l) {
      forall from, ops | Undisturbed(l, Empty(from), ops) ensures Unseen(l, from, ops) {
        UndisturbedUnseen(l, from, ops);
      }
    } else {
      var t := l.staleThreshold + 1;
      DrainedUndisturbed(l, "k");
      DrainedIsTooEarly(l, "k");
      EarlyTells(l, Drained(l, "k"), "k", t);
      assert !Unseen(l, 0, Early(l, Drained(l, "k"), "k", t));
    }
  }

  // An admitted call between collection and deletion.

  function Reused(l: Limits, k: string): seq<Op> {
    var t := l.staleThreshold + 1;
    ([Allow(k, 0, 0)] + Gather(k, t)) + Burst(k, t, l.burst)
  }

  /** One call long ago, and the key is collected. */
  lemma CollectedOnce(l: Limits, k: string)
    requires k != "" && l.burst > 0
    ensures var ops, t := [Allow(k, 0, 0)] + Gather(k, l.staleThreshold + 1), l.staleThreshold + 1;
            && Timed(0, ops) && End(0, ops) == t
            && k in Run(l, Empty(0), ops).collected
            && (IdleRefills(l) ==> LevelOf(l, Run(l, Empty(0), ops), k, t) == Full(l))
  {
    var t, called := l.staleThreshold + 1, Next(l, Empty(0), Allow(k, 0, 0));
    var ops := [Allow(k, 0, 0)] + Gather(k, t);
    assert ops[1..] == Gather(k, t);
    Gathered(l, called, k, 0, t);
    if IdleRefills(l) {
      FreshStart(l, 0);
      RecordedKept(l, Empty(0), Allow(k, 0, 0), 0);
      StaleIsFull(l, Next(l, called, Begin(t)), k, t);
    }
  }

  lemma ReusedIsTooEarly(l: Limits, k: string)
    requires k != "" && l.burst > 0
    ensures TooEarly(l, Reused(l, k), k, l.staleThreshold + 1)
  {
    var t, first := l.staleThreshold + 1, [Allow(k, 0, 0)] + Gather(k, l.staleThreshold + 1);
    var s := Run(l, Empty(0), first);
    CollectedOnce(l, k);
    BurstTimed(k, t, l.burst);
    TimedConcat(0, first, Burst(k, t, l.burst));
    BurstIsCalls(k, t, l.burst);
    NoEvictIsHarmless(l, Empty(0), Reused(l, k));
    RunConcat(l, Empty(0), first, Burst(k, t, l.burst));
    BurstSpends(l, s, k, t, l.burst);
  }

  lemma {:induction false} NothingAdmitted(l: Limits, s: State, ops: seq<Op>)
    requires l.burst == 0
    ensures Undisturbed(l, s, ops)
    decreases ops
  {
    if ops != [] { NothingAdmitted(l, Next(l, s, ops[0]), ops[1..]); }
  }

  /**
   All histories: with calls allowed between collection and deletion cleanups are observable under
   every configuration that admits any call at all.
   */
  lemma CleanupsUnseenIff(l: Limits)
    ensures (forall from, ops :: Unseen(l, from, ops)) <==> l.burst == 0
  {
    if l.burst == 0 {
      forall from, ops ensures Unseen(l, from, ops) {
        NothingAdmitted(l, Empty(from), ops);
        MulMono(0, l.staleThreshold + 1, l.requestsPerSecond);
        UndisturbedUnseen(l, from, ops);
      }
    } else {
      ReusedIsTooEarly(l, "k");
      EarlyTells(l, Reused(l, "k"), "k", l.staleThreshold + 1);
    }
  }

  // ----- What a key gets -----

  /** A level of the bucket is what was there and what time adds, up to the burst. */
  lemma LevelRefills(l: Limits, s: State, k: string, from: int, t: int)
    requires from <= t
    ensures var refilled := LevelOf(l, s, k, from) + (t - from) * l.requestsPerSecond;
            LevelOf(l, s, k, t) == if refilled > l.burst * TOKEN then l.burst * TOKEN else refilled
  {
    MulMono(0, t - from, l.requestsPerSecond);
    if k in s.limiters {
      var b := s.limiters[k];
      Distribute(t, from, b.last, l.requestsPerSecond);
    }
  }

  /** Of calls at one instant as many are admitted as there are whole tokens. */
  lemma {:induction false} AdmittedAtOnce(l: Limits, s: State, k: string, t: int, n: nat)
    requires k != "" && LevelOf(l, s, k, t) >= 0
    ensures var whole := LevelOf(l, s, k, t) / TOKEN;
            Allowed(l, s, Burst(k, t, n), k) == if n <= whole then n else whole
    decreases n
  {
    if n > 0 {
      OneCall(l, s, k, t);
      assert Burst(k, t, n)[1..] == Burst(k, t, n - 1);
      AdmittedAtOnce(l, Next(l, s, Allow(k, t, t)), k, t, n - 1);
    }
  }

  /** A new key gets exactly its burst at once. */
  lemma NewKeyGetsBurst(l: Limits, k: string, t: int, n: nat)
    requires k != ""
    ensures Allowed(l, Empty(t), Burst(k, t, n), k) == if n <= l.burst then n else l.burst
  {
    AdmittedAtOnce(l, Empty(t), k, t, n);
  }

  /** The operations that concern key `k`. */
  predicate Concerns(op: Op, k: string) {
    op.Begin? || op.key == k
  }

  function OfKey(ops: seq<Op>, k: string): (r: seq<Op>)
    ensures forall op :: op in r <==> op in ops && Concerns(op, k)
  {
    if ops == [] then [] else (if Concerns(ops[0], k) then [ops[0]] else []) + OfKey(ops[1..], k)
  }

  /** The two states hold the same about key `k`. */
  ghost predicate SameFor(s: State, u: State, k: string) {
    && (k in s.limiters <==> k in u.limiters) && (k in s.limiters ==> s.limiters[k] == u.limiters[k])
    && (k in s.lastAccess <==> k in u.lastAccess) && (k in s.lastAccess ==> s.lastAccess[k] == u.lastAccess[k])
    && (k in s.collected <==> k in u.collected) && (k in s.leaving <==> k in u.leaving) && s.sweep == u.sweep
  }

  lemma StepSameFor(l: Limits, s: State, u: State, op: Op, k: string)
    requires SameFor(s, u, k)
    ensures Concerns(op, k) ==> SameFor(Next(l, s, op), Next(l, u, op), k) && Grants(l, s, op, k) == Grants(l, u, op, k)
    ensures !Concerns(op, k) ==> SameFor(Next(l, s, op), u, k) && Grants(l, s, op, k) == 0
  {
  }

  /** Keys do not share: what one key is allowed does not depend on the calls and deletions of others. */
  lemma {:induction false} KeysApart(l: Limits, s: State, u: State, ops: seq<Op>, k: string)
    requires SameFor(s, u, k)
    ensures Allowed(l, s, ops, k) == Allowed(l, u, OfKey(ops, k), k)
    decreases ops
  {
    if ops != [] {
      var op, rest := ops[0], ops[1..];
      StepSameFor(l, s, u, op, k);
      if Concerns(op, k) {
        KeysApart(l, Next(l, s, op), Next(l, u, op), rest, k);
        assert ([op] + OfKey(rest, k))[1..] == OfKey(rest, k);
      } else {
        KeysApart(l, Next(l, s, op), u, rest, k);
        assert OfKey(ops, k) == OfKey(rest, k);
      }
    }
  }

  // ----- Which limiters can be collected -----

  /** A limiter that is not full has an access time, so that a cleanup can find it. */
  ghost predicate Findable(l: Limits, s: State, k: string) {
    k in s.limiters && s.limiters[k].tokens != Full(l) ==> k in s.lastAccess
  }

  /** Findable, and no deletion of the access time is under way. */
  ghost predicate Stamped(l: Limits, s: State, k: string) {
    k in s.limiters && s.limiters[k].tokens != Full(l) ==> k in s.lastAccess && k !in s.leaving
  }

  lemma StampKept(l: Limits, s: State, op: Op, k: string)
    requires Stamped(l, s, k)
    requires op.Allow? && op.key == k && Admits(l, s, k, op.at) ==> k !in s.leaving
    ensures Stamped(l, Next(l, s, op), k)
  {
  }

  lemma {:induction false} SweepsKeepStamp(l: Limits, s: State, ops: seq<Op>, k: string)
    requires OnlySweeps(ops) && Stamped(l, s, k)
    ensures Stamped(l, Run(l, s, ops), k)
    decreases ops
  {
    if ops != [] {
      StampKept(l, s, ops[0], k);
      SweepsKeepStamp(l, Next(l, s, ops[0]), ops[1..], k);
    }
  }

  /**
   Exactly when a limiter that admitted a call stays within reach of the cleanups: whatever they do
   next it keeps its access time as long as it lives, if and only if the call did not come between the
   deletion of the key's old limiter and that of its old access time.
   */
  lemma FindableIff(l: Limits, s: State, k: string, at: int, stamped: int)
    requires k != "" && Admits(l, s, k, at)
    ensures var s' := Next(l, s, Allow(k, at, stamped));
            (forall ops | OnlySweeps(ops) :: Findable(l, Run(l, s', ops), k)) <==> k !in s.leaving
  {
    var s' := Next(l, s, Allow(k, at, stamped));
    if k !in s.leaving {
      forall ops | OnlySweeps(ops) ensures Findable(l, Run(l, s', ops), k) {
        SweepsKeepStamp(l, s', ops, k);
      }
    } else {
      var forget := [Forget(k)];
      assert forget[1..] == [] && Run(l, Next(l, s', Forget(k)), []) == Next(l, s', Forget(k));
      assert !Findable(l, Run(l, s', forget), k);
    }
  }

  /** The history that loses an access time: one old call, a cleanup, and a call between its two deletions. */
  function Unstamping(l: Limits, k: string): seq<Op> {
    var t := l.staleThreshold + 1;
    [Allow(k, 0, 0)] + Gather(k, t) + [Evict(k, t)] + [Allow(k, t, t)] + [Forget(k)]
  }

  lemma UnstampingTimed(l: Limits, k: string)
    ensures Timed(0, Unstamping(l, k))
  {
    var t, before := l.staleThreshold + 1, [Allow(k, 0, 0)] + Gather(k, l.staleThreshold + 1);
    var rest := [Evict(k, t), Allow(k, t, t), Forget(k)];
    BeforeTimed(l, k);
    assert rest[1..] == [Allow(k, t, t), Forget(k)] && rest[1..][1..] == [Forget(k)] && rest[1..][1..][1..] == [];
    assert Timed(t, [Forget(k)]) by { assert Timed(t, []); }
    assert Timed(t, rest[1..]) && Timed(t, rest);
    TimedConcat(0, before, rest);
    assert Unstamping(l, k) == before + rest;
  }

  /** Whenever any call is admitted at all, that history leaves a limiter that no cleanup can find. */
  lemma StampLost(l: Limits, k: string)
    requires k != "" && l.burst > 0
    ensures Timed(0, Unstamping(l, k)) && !Findable(l, Run(l, Empty(0), Unstamping(l, k)), k)
  {
    var t, before := l.staleThreshold + 1, [Allow(k, 0, 0)] + Gather(k, l.staleThreshold + 1);
    UnstampingTimed(l, k);
    CollectedOnce(l, k);
    var s := Next(l, Run(l, Empty(0), before), Evict(k, t));
    assert k in s.leaving && Admits(l, s, k, t);
    RunPush(l, Empty(0), before, Evict(k, t));
    RunPush(l, Empty(0), before + [Evict(k, t)], Allow(k, t, t));
    RunPush(l, Empty(0), before + [Evict(k, t)] + [Allow(k, t, t)], Forget(k));
    assert Next(l, s, Allow(k, t, t)).limiters[k].tokens == Full(l) - TOKEN;
  }

  /** Over whole histories: if no call is admitted for a key that is leaving, every limiter is within reach. */
  lemma {:induction false} AllStamped(l: Limits, s: State, ops: seq<Op>)
    requires Unleaving(l, s, ops) && forall k :: Stamped(l, s, k)
    ensures forall k :: Stamped(l, Run(l, s, ops), k)
    decreases ops
  {
    if ops != [] {
      forall k ensures Stamped(l, Next(l, s, ops[0]), k) {
        StampKept(l, s, ops[0], k);
      }
      AllStamped(l, Next(l, s, ops[0]), ops[1..]);
    }
  }

  /** No call is admitted for a key between the deletions of its limiter and of its access time. */
  predicate Unleaving(l: Limits, s: State, ops: seq<Op>)
    decreases ops
  {
    ops == [] ||
    ((ops[0].Allow? && ops[0].key in s.leaving ==> !Admits(l, s, ops[0].key, ops[0].at))
     && Unleaving(l, Next(l, s, ops[0]), ops[1..]))
  }

  // ----- The rate that is enforced -----

  /** How many calls for `k` are allowed when `ops` run from `s`. */
  function Allowed(l: Limits, s: State, ops: seq<Op>, k: string): nat
    decreases ops
  {
    if ops == [] then 0 else Grants(l, s, ops[0], k) + Allowed(l, Next(l, s, ops[0]), ops[1..], k)
  }

  function Grants(l: Limits, s: State, op: Op, k: string): nat {
    if k != "" && op.Allow? && op.key == k && Admits(l, s, k, op.at) then 1 else 0
  }

  /** What the deletions of `k`'s limiter give back: each what was missing to a full bucket. */
  function Regained(l: Limits, s: State, ops: seq<Op>, k: string): int
    decreases ops
  {
    if ops == [] then 0 else GivesBack(l, s, ops[0], k) + Regained(l, Next(l, s, ops[0]), ops[1..], k)
  }

  function GivesBack(l: Limits, s: State, op: Op, k: string): int {
    if op.Evict? && op.key == k && k in s.collected then Full(l) - LevelOf(l, s, k, op.at) else 0
  }

  /** How often `k`'s limiter is deleted. */
  function Deletions(ops: seq<Op>, k: string): nat {
    if ops == [] then 0 else (if ops[0].Evict? && ops[0].key == k then 1 else 0) + Deletions(ops[1..], k)
  }

  /** Time adds at most the rate. */
  lemma LevelGrows(l: Limits, s: State, k: string, t: int, t': int)
    requires t <= t'
    ensures LevelOf(l, s, k, t') <= LevelOf(l, s, k, t) + (t' - t) * l.requestsPerSecond
  {
    MulMono(0, t' - t, l.requestsPerSecond);
    if k in s.limiters {
      var b := s.limiters[k];
      assert (t' - b.last) * l.requestsPerSecond == (t - b.last) * l.requestsPerSecond + (t' - t) * l.requestsPerSecond;
    }
  }

  lemma Distribute(c: int, b: int, a: int, r: nat)
    ensures (c - b) * r + (b - a) * r == (c - a) * r
  {
  }

  lemma CallBudget(l: Limits, s: State, from: int, op: Op, k: string)
    requires op.Allow? && Timed(from, [op])
    ensures LevelOf(l, Next(l, s, op), k, op.stamped) + Grants(l, s, op, k) * TOKEN
         <= LevelOf(l, s, k, from) + (op.stamped - from) * l.requestsPerSecond
  {
    var s' := Next(l, s, op);
    LevelGrows(l, s, k, from, op.at);
    LevelGrows(l, s', k, op.at, op.stamped);
    Distribute(op.stamped, op.at, from, l.requestsPerSecond);
    assert LevelOf(l, s', k, op.at) <= LevelOf(l, s, k, op.at) - Grants(l, s, op, k) * TOKEN;
  }

  lemma StepBudget(l: Limits, s: State, from: int, op: Op, k: string)
    requires Timed(from, [op])
    ensures LevelOf(l, Next(l, s, op), k, Clock(op, from)) + Grants(l, s, op, k) * TOKEN
         <= LevelOf(l, s, k, from) + (Clock(op, from) - from) * l.requestsPerSecond + GivesBack(l, s, op, k)
  {
    if op.Allow? {
      CallBudget(l, s, from, op, k);
    } else {
      LevelGrows(l, s, k, from, Clock(op, from));
    }
  }

  lemma {:induction false} SpentWithinBudget(l: Limits, s: State, from: int, ops: seq<Op>, k: string)
    requires Timed(from, ops)
    ensures Allowed(l, s, ops, k) * TOKEN + LevelOf(l, Run(l, s, ops), k, End(from, ops))
         <= LevelOf(l, s, k, from) + (End(from, ops) - from) * l.requestsPerSecond + Regained(l, s, ops, k)
    decreases ops
  {
    if ops != [] {
      var op, now := ops[0], Clock(ops[0], from);
      SpentWithinBudget(l, Next(l, s, op), now, ops[1..], k);
      StepBudget(l, s, from, op, k);
      Distribute(End(from, ops), now, from, l.requestsPerSecond);
    }
  }

  lemma {:induction false} HarmlessRegainsNothing(l: Limits, s: State, ops: seq<Op>, k: string)
    requires Harmless(l, s, ops)
    ensures Regained(l, s, ops, k) == 0
    decreases ops
  {
    if ops != [] { HarmlessRegainsNothing(l, Next(l, s, ops[0]), ops[1..], k); }
  }

  lemma OneDeletion(l: Limits, s: State, from: int, op: Op, k: string)
    requires Timed(from, [op]) && Recorded(l, s, from)
    ensures GivesBack(l, s, op, k) <= (if op.Evict? && op.key == k then Full(l) else 0)
  {
    if op.Evict? && k in s.limiters { MulMono(0, op.at - s.limiters[k].last, l.requestsPerSecond); }
  }

  lemma {:induction false} RegainedAtMost(l: Limits, s: State, from: int, ops: seq<Op>, k: string)
    requires Timed(from, ops) && Recorded(l, s, from)
    ensures Regained(l, s, ops, k) <= Deletions(ops, k) * Full(l)
    decreases ops
  {
    if ops != [] {
      RecordedKept(l, s, ops[0], from);
      OneDeletion(l, s, from, ops[0], k);
      RegainedAtMost(l, Next(l, s, ops[0]), Clock(ops[0], from), ops[1..], k);
      OneMore(Deletions(ops[1..], k), Full(l));
    }
  }

  lemma OneMore(n: nat, x: int)
    ensures (1 + n) * x == x + n * x && (0 + n) * x == n * x
  {
  }

  /**
   The enforced rate, for every configuration, after any history and with cleanups interleaved in any
   way: one key is allowed at most burst + rate x T calls in any window of length T, and what the
   deletions of its limiter in the window give back, at most a burst each; nothing, if idle keys
   refill and no call disturbs a cleanup.
   */
  lemma WindowBound(l: Limits, from: int, before: seq<Op>, window: seq<Op>, k: string)
    requires Timed(from, before) && Timed(End(from, before), window)
    ensures var s, start := Run(l, Empty(from), before), End(from, before);
            && Allowed(l, s, window, k) * TOKEN
                 <= Full(l) + (End(start, window) - start) * l.requestsPerSecond + Regained(l, s, window, k)
            && Regained(l, s, window, k) <= Deletions(window, k) * Full(l)
            && (IdleRefills(l) && Undisturbed(l, Empty(from), before + window) ==> Regained(l, s, window, k) == 0)
  {
    var s, start := Run(l, Empty(from), before), End(from, before);
    FreshStart(l, from);
    RunRecorded(l, Empty(from), from, before);
    SpentWithinBudget(l, s, start, window, k);
    RunRecorded(l, s, start, window);
    NonNegative(l, Run(l, s, window), k, End(start, window));
    RegainedAtMost(l, s, start, window, k);
    if IdleRefills(l) && Undisturbed(l, Empty(from), before + window) {
      TimedConcat(from, before, window);
      UndisturbedIsHarmless(l, Empty(from), from, before + window);
      HarmlessConcat(l, Empty(from), before, window);
      HarmlessRegainsNothing(l, s, window, k);
    }
  }

  lemma {:induction false} AllowedConcat(l: Limits, s: State, ops: seq<Op>, more: seq<Op>, k: string)
    ensures Allowed(l, s, ops + more, k) == Allowed(l, s, ops, k) + Allowed(l, Run(l, s, ops), more, k)
    decreases ops
  {
    if ops == [] {
      assert ops + more == more;
    } else {
      AllowedConcat(l, Next(l, s, ops[0]), ops[1..], more, k);
      assert (ops + more)[1..] == ops[1..] + more;
    }
  }

  lemma {:induction false} BurstAllowed(l: Limits, s: State, k: string, t: int, n: nat)
    requires k != "" && (n == 0 || LevelOf(l, s, k, t) >= n * TOKEN)
    ensures Allowed(l, s, Burst(k, t, n), k) == n
    decreases n
  {
    if n > 0 {
      OneCall(l, s, k, t);
      assert Burst(k, t, n)[1..] == Burst(k, t, n - 1);
      BurstAllowed(l, Next(l, s, Allow(k, t, t)), k, t, n - 1);
    }
  }

  /** The bound is reached: a disturbed cleanup lets twice the burst pass at one instant. */
  lemma TwoBurstsAtOnce(l: Limits, k: string)
    requires k != "" && IdleRefills(l)
    ensures var t := l.staleThreshold + 1;
            var before, window := [Allow(k, 0, 0)] + Gather(k, t), Burst(k, t, l.burst) + ([Evict(k, t)] + Burst(k, t, l.burst));
            && Timed(0, before + window) && End(t, window) == End(0, before) == t
            && Allowed(l, Run(l, Empty(0), before), window, k) == 2 * l.burst
  {
    var t, again := l.staleThreshold + 1, Burst(k, l.staleThreshold + 1, l.burst);
    var before, window := [Allow(k, 0, 0)] + Gather(k, t), again + ([Evict(k, t)] + again);
    var s := Run(l, Empty(0), before);
    BeforeTimed(l, k);
    BurstTimed(k, t, l.burst);
    EvictThen(l, s, k, t, again);
    assert ([Evict(k, t)] + again)[1..] == again;
    TimedConcat(t, again, [Evict(k, t)] + again);
    TimedConcat(0, before, window);
    AllowedConcat(l, s, again, [Evict(k, t)] + again, k);
    if l.burst > 0 {
      CollectedOnce(l, k);
      BurstAllowed(l, s, k, t, l.burst);
      BurstSpends(l, s, k, t, l.burst);
      BurstAllowed(l, Next(l, Run(l, s, again), Evict(k, t)), k, t, l.burst);
    }
  }

  lemma BeforeTimed(l: Limits, k: string)
    ensures var ops := [Allow(k, 0, 0)] + Gather(k, l.staleThreshold + 1);
            Timed(0, ops) && End(0, ops) == l.staleThreshold + 1
  {
    assert ([Allow(k, 0, 0)] + Gather(k, l.staleThreshold + 1))[1..] == Gather(k, l.staleThreshold + 1);
    Gathered(l, Empty(0), k, 0, l.staleThreshold + 1);
  }
}
