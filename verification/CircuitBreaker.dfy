/**
 The circuit breaker of `pkg/circuitbreaker`. Execute holds the mutex while the protected function
 runs, so calls are atomic; a call carries the clock when it starts and when the function returns.
 */
module CircuitBreaker {

  datatype Mode = Closed | Open | HalfOpen

  datatype Config = Config(failureThreshold: int, resetTimeout: int, halfOpenMaxCalls: int)

  predicate Sane(c: Config) {
    c.failureThreshold > 0 && c.resetTimeout > 0 && c.halfOpenMaxCalls > 0
  }

  /** The defaults New puts in the place of non-positive settings: 5 failures, 60 s, one probe. */
  function Normalized(c: Config): (r: Config)
    ensures Sane(r)
    ensures c.failureThreshold > 0 ==> r.failureThreshold == c.failureThreshold
    ensures c.resetTimeout > 0 ==> r.resetTimeout == c.resetTimeout
    ensures c.halfOpenMaxCalls > 0 ==> r.halfOpenMaxCalls == c.halfOpenMaxCalls
    ensures c == Config(0, 0, 0) ==> r == Config(5, 60_000_000_000, 1)
  {
    Config(if c.failureThreshold <= 0 then 5 else c.failureThreshold,
           if c.resetTimeout <= 0 then 60_000_000_000 else c.resetTimeout,
           if c.halfOpenMaxCalls <= 0 then 1 else c.halfOpenMaxCalls)
  }

  datatype State = State(mode: Mode, consecutiveFailures: int, lastFailureTime: int, successCount: int)

  datatype Event = Call(start: int, finish: int, ok: bool) | Reset(at: int)

  /** What a call reports: the function was not run, or its result. */
  datatype Reply = Rejected | Returned(ok: bool)

  function Fresh(now: int): State {
    State(Closed, 0, now, 0)
  }

  // ----- The transition function -----

  function Probe(c: Config, s: State, finish: int, ok: bool): State {
    if !ok then State(Open, 1, finish, 0)
    else if s.successCount + 1 >= c.halfOpenMaxCalls then s.(mode := Closed, consecutiveFailures := 0, successCount := 0)
    else s.(mode := HalfOpen, successCount := s.successCount + 1)
  }

  predicate Refuses(c: Config, s: State, start: int) {
    s.mode.Open? && start - s.lastFailureTime < c.resetTimeout
  }

  function Next(c: Config, s: State, e: Event): State {
    match e
    case Reset(at) => Fresh(at)
    case Call(start, finish, ok) =>
      match s.mode
      case Closed =>
        if ok then s.(consecutiveFailures := 0)
        else s.(mode := if s.consecutiveFailures + 1 >= c.failureThreshold then Open else Closed,
                consecutiveFailures := s.consecutiveFailures + 1, lastFailureTime := finish)
      case Open => if Refuses(c, s, start) then s else Probe(c, s.(successCount := 0), finish, ok)
      case HalfOpen => Probe(c, s, finish, ok)
  }

  function Run(c: Config, created: int, events: seq<Event>): State {
    if events == [] then Fresh(created)
    else Next(c, Run(c, created, events[..|events| - 1]), events[|events| - 1])
  }

  // ----- The object -----

  class Breaker {
    var mode: Mode
    var consecutiveFailures: int
    var lastFailureTime: int
    var successCount: int
    /** The state changes handed to the callback, oldest first. */
    var notified: seq<(Mode, Mode)>
    const config: Config

    ghost function Value(): State
      reads this
    {
      State(mode, consecutiveFailures, lastFailureTime, successCount)
    }

    /** The notifications form a path from Closed to the current state, one real change each. */
    ghost predicate Valid()
      reads this
    {
      && Sane(config)
      && (forall k :: 0 <= k < |notified| ==> notified[k].0 != notified[k].1)
      && (forall k :: 0 < k < |notified| ==> notified[k].0 == notified[k - 1].1)
      && (notified == [] ==> mode == Closed)
      && (notified != [] ==> notified[0].0 == Closed && notified[|notified| - 1].1 == mode)
    }

    constructor (c: Config, now: int)
      ensures Valid() && config == Normalized(c) && Value() == Fresh(now) && notified == []
    {
      config := Normalized(c);
      mode, consecutiveFailures, lastFailureTime, successCount := Closed, 0, now, 0;
      notified := [];
    }

    /** Runs the function, whose result will be `ok`, unless the open circuit refuses the call. */
    method Execute(start: int, finish: int, ok: bool) returns (reply: Reply)
      requires Valid()
      modifies this
      ensures Valid()
      ensures Value() == Next(config, old(Value()), Call(start, finish, ok))
      ensures reply == if old(Refuses(config, Value(), start)) then Rejected else Returned(ok)
      ensures reply.Rejected? ==> Value() == old(Value()) && notified == old(notified)
    {
      match mode
      case Closed => reply := ExecuteClosed(finish, ok);
      case Open => reply := ExecuteOpen(start, finish, ok);
      case HalfOpen => reply := ExecuteHalfOpen(finish, ok);
    }

    method ExecuteClosed(finish: int, ok: bool) returns (reply: Reply)
      requires Valid() && mode == Closed
      modifies this
      ensures Valid() && reply == Returned(ok)
      ensures forall start :: Value() == Next(config, old(Value()), Call(start, finish, ok))
    {
      if !ok {
        consecutiveFailures := consecutiveFailures + 1;
        lastFailureTime := finish;
        if consecutiveFailures >= config.failureThreshold {
          ChangeState(Open);
        }
        return Returned(ok);
      }
      consecutiveFailures := 0;
      return Returned(ok);
    }

    method ExecuteOpen(start: int, finish: int, ok: bool) returns (reply: Reply)
      requires Valid() && mode == Open
      modifies this
      ensures Valid()
      ensures Value() == Next(config, old(Value()), Call(start, finish, ok))
      ensures reply == if old(Refuses(config, Value(), start)) then Rejected else Returned(ok)
      ensures reply.Rejected? ==> Value() == old(Value()) && notified == old(notified)
    {
      if start - lastFailureTime >= config.resetTimeout {
        ChangeState(HalfOpen);
        successCount := 0;
        reply := ExecuteHalfOpen(finish, ok);
        return;
      }
      return Rejected;
    }

    method ExecuteHalfOpen(finish: int, ok: bool) returns (reply: Reply)
      requires Valid() && mode == HalfOpen
      modifies this
      ensures Valid() && reply == Returned(ok)
      ensures Value() == Probe(config, old(Value()), finish, ok)
    {
      if !ok {
        ChangeState(Open);
        lastFailureTime := finish;
        consecutiveFailures := 1;
        successCount := 0;
        return Returned(ok);
      }
      successCount := successCount + 1;
      if successCount >= config.halfOpenMaxCalls {
        ChangeState(Closed);
        consecutiveFailures := 0;
        successCount := 0;
      }
      return Returned(ok);
    }

    method ChangeState(next: Mode)
      requires Valid() && next != mode
      modifies this`mode, this`notified
      ensures Valid() && mode == next && notified == old(notified) + [(old(mode), next)]
    {
      notified := notified + [(mode, next)];
      mode := next;
    }

    method ResetNow(now: int)
      requires Valid()
      modifies this
      ensures Valid() && Value() == Next(config, old(Value()), Reset(now))
    {
      if mode != Closed { ChangeState(Closed); }
      consecutiveFailures, successCount, lastFailureTime := 0, 0, now;
    }
  }

  // ----- The specification by history -----

  /** What actually happened: a run of the function with its result and end, or a manual reset. */
  datatype Entry = Ran(ok: bool, at: int) | WasReset(at: int)

  /** How many failed runs end the log without interruption. */
  function FailureRun(log: seq<Entry>): nat {
    if log == [] || log[|log| - 1].WasReset? || log[|log| - 1].ok then 0 else 1 + FailureRun(log[..|log| - 1])
  }

  /** How many successful runs end the log without interruption. */
  function SuccessRun(log: seq<Entry>): nat {
    if log == [] || log[|log| - 1].WasReset? || !log[|log| - 1].ok then 0 else 1 + SuccessRun(log[..|log| - 1])
  }

  /** Entry `j` heals: it is a reset, or completes as many successes in a row as closing takes. */
  predicate Heals(c: Config, log: seq<Entry>, j: int) {
    0 <= j < |log| && (log[j].WasReset? || SuccessRun(log[..j + 1]) >= c.halfOpenMaxCalls)
  }

  /** Entry `i` completes as many failures in a row as opening takes. */
  predicate Trips(c: Config, log: seq<Entry>, i: int) {
    0 <= i < |log| && FailureRun(log[..i + 1]) >= c.failureThreshold
  }

  /** At some point the failures in a row reached the threshold, and nothing has healed it since. */
  ghost predicate Tripped(c: Config, log: seq<Entry>) {
    exists i :: TrippedBy(c, log, i)
  }

  ghost function SpecMode(c: Config, log: seq<Entry>): Mode {
    if !Tripped(c, log) then Closed
    else if FailureRun(log) > 0 then Open
    else HalfOpen
  }

  ghost predicate Admits(c: Config, log: seq<Entry>, start: int) {
    SpecMode(c, log).Open? && log != [] ==> start - log[|log| - 1].at >= c.resetTimeout
  }

  /** The log of a history of requests: a refused call leaves no entry. */
  ghost function Log(c: Config, events: seq<Event>): seq<Entry> {
    if events == [] then []
    else
      var log := Log(c, events[..|events| - 1]);
      match events[|events| - 1]
      case Reset(at) => log + [WasReset(at)]
      case Call(start, finish, ok) => if Admits(c, log, start) then log + [Ran(ok, finish)] else log
  }

  lemma Earlier(c: Config, log: seq<Entry>, e: Entry, i: int)
    requires 0 <= i < |log|
    ensures Heals(c, log + [e], i) == Heals(c, log, i) && Trips(c, log + [e], i) == Trips(c, log, i)
  {
    assert (log + [e])[..i + 1] == log[..i + 1];
  }

  lemma Latest(c: Config, log: seq<Entry>, e: Entry)
    ensures Heals(c, log + [e], |log|) <==> e.WasReset? || SuccessRun(log + [e]) >= c.halfOpenMaxCalls
    ensures Trips(c, log + [e], |log|) <==> FailureRun(log + [e]) >= c.failureThreshold
  {
    assert (log + [e])[..|log| + 1] == log + [e];
  }

  /** Entry `i` tripped the circuit and nothing after it healed it. */
  ghost predicate TrippedBy(c: Config, log: seq<Entry>, i: int) {
    Trips(c, log, i) && forall j :: i < j ==> !Heals(c, log, j)
  }

  lemma TrippedBefore(c: Config, log: seq<Entry>, e: Entry, i: int)
    requires i < |log|
    ensures TrippedBy(c, log + [e], i) <==> TrippedBy(c, log, i) && !Heals(c, log + [e], |log|)
  {
    var log' := log + [e];
    forall j | 0 <= j < |log| ensures Heals(c, log', j) == Heals(c, log, j) && Trips(c, log', j) == Trips(c, log, j) {
      Earlier(c, log, e, j);
    }
    if TrippedBy(c, log', i) {
      forall j | i < j ensures !Heals(c, log, j) {
        assert !Heals(c, log', j);
      }
    }
    if TrippedBy(c, log, i) && !Heals(c, log', |log|) {
      forall j | i < j ensures !Heals(c, log', j) {
        assert !Heals(c, log, j);
      }
    }
  }

  lemma TrippedNow(c: Config, log: seq<Entry>, e: Entry)
    ensures TrippedBy(c, log + [e], |log|) <==> FailureRun(log + [e]) >= c.failureThreshold
  {
    Latest(c, log, e);
  }

  /** How one more entry changes whether the circuit counts as tripped. */
  lemma TrippedStep(c: Config, log: seq<Entry>, e: Entry)
    requires Sane(c)
    ensures Tripped(c, log + [e]) <==>
            || (Tripped(c, log) && !e.WasReset? && SuccessRun(log + [e]) < c.halfOpenMaxCalls)
            || FailureRun(log + [e]) >= c.failureThreshold
  {
    Latest(c, log, e);
    TrippedNow(c, log, e);
    if Tripped(c, log + [e]) {
      var i :| TrippedBy(c, log + [e], i);
      if i < |log| { TrippedBefore(c, log, e, i); }
    }
    if Tripped(c, log) && !e.WasReset? && SuccessRun(log + [e]) < c.halfOpenMaxCalls {
      var i :| TrippedBy(c, log, i);
      TrippedBefore(c, log, e, i);
    }
  }

  /** The concrete state and the history say the same. */
  ghost predicate Agrees(c: Config, s: State, log: seq<Entry>) {
    && s.mode == SpecMode(c, log)
    && (s.mode.Closed? ==> s.consecutiveFailures == FailureRun(log) && s.successCount == 0)
    && (s.mode.Open? ==> log != [] && s.lastFailureTime == log[|log| - 1].at)
    && (s.mode.HalfOpen? ==> s.successCount == SuccessRun(log))
  }

  lemma StepAgrees(c: Config, s: State, log: seq<Entry>, e: Event)
    requires Sane(c) && Agrees(c, s, log)
    ensures e.Reset? ==> Agrees(c, Next(c, s, e), log + [WasReset(e.at)])
    ensures e.Call? ==> (Refuses(c, s, e.start) <==> !Admits(c, log, e.start))
    ensures e.Call? && Refuses(c, s, e.start) ==> Next(c, s, e) == s
    ensures e.Call? && !Refuses(c, s, e.start) ==> Agrees(c, Next(c, s, e), log + [Ran(e.ok, e.finish)])
  {
    var entry := if e.Reset? then WasReset(e.at) else Ran(e.ok, e.finish);
    TrippedStep(c, log, entry);
    assert (log + [entry])[..|log|] == log;
    assert FailureRun(log) > 0 ==> SuccessRun(log) == 0;
  }

  /**
   Refinement: after every history of calls and resets, at whatever times, the breaker's state is
   the one the history of actual runs prescribes, counters included.
   */
  lemma {:induction false} BreakerRefinesHistory(c: Config, created: int, events: seq<Event>)
    requires Sane(c)
    ensures Agrees(c, Run(c, created, events), Log(c, events))
  {
    if events == [] {
      assert !Tripped(c, []);
    } else {
      var front := events[..|events| - 1];
      BreakerRefinesHistory(c, created, front);
      StepAgrees(c, Run(c, created, front), Log(c, front), events[|events| - 1]);
    }
  }

  /** A call runs its function iff the history admits it, in every reachable state. */
  lemma RunsIffAdmitted(c: Config, created: int, events: seq<Event>, start: int)
    requires Sane(c)
    ensures Refuses(c, Run(c, created, events), start) <==> !Admits(c, Log(c, events), start)
  {
    BreakerRefinesHistory(c, created, events);
    StepAgrees(c, Run(c, created, events), Log(c, events), Call(start, start, true));
  }

  // ----- Consecutive outcomes -----

  /** The state after `events` from `s`. */
  function From(c: Config, s: State, events: seq<Event>): State
    decreases events
  {
    if events == [] then s else From(c, Next(c, s, events[0]), events[1..])
  }

  ghost predicate AllCalls(events: seq<Event>, ok: bool) {
    forall k :: 0 <= k < |events| ==> events[k].Call? && events[k].ok == ok
  }

  /** Calls that fail one after the other open a closed circuit exactly with the threshold's one, and all run. */
  lemma {:induction false} FailuresTrip(c: Config, s: State, calls: seq<Event>)
    requires Sane(c) && s.mode.Closed? && AllCalls(calls, false)
    requires 0 <= s.consecutiveFailures < c.failureThreshold && s.consecutiveFailures + |calls| <= c.failureThreshold
    ensures From(c, s, calls).mode == if s.consecutiveFailures + |calls| == c.failureThreshold then Open else Closed
    ensures calls != [] ==> From(c, s, calls).lastFailureTime == calls[|calls| - 1].finish
    ensures Executions(c, s, calls) == |calls|
    ensures Openings(c, s, calls)
         == if s.consecutiveFailures + |calls| == c.failureThreshold then [calls[|calls| - 1].finish] else []
    decreases calls
  {
    if |calls| == 1 {
      assert calls[1..] == [];
    } else if |calls| > 1 {
      FailuresTrip(c, Next(c, s, calls[0]), calls[1..]);
    }
  }

  /** A success in between starts the count again. */
  lemma SuccessForgives(c: Config, s: State, e: Event)
    requires s.mode.Closed? && e.Call? && e.ok
    ensures Next(c, s, e).mode.Closed? && Next(c, s, e).consecutiveFailures == 0 && !Refuses(c, s, e.start)
  {
  }

  /** An open circuit refuses every call, and stays as it is, until the timeout after the last failure has passed. */
  lemma OpenRefuses(c: Config, s: State, e: Event)
    requires s.mode.Open? && e.Call?
    ensures e.start < s.lastFailureTime + c.resetTimeout <==> Refuses(c, s, e.start)
    ensures Refuses(c, s, e.start) ==> Next(c, s, e) == s
  {
  }

  lemma {:induction false} ProbesCount(c: Config, s: State, calls: seq<Event>)
    requires Sane(c) && s.mode.HalfOpen? && AllCalls(calls, true)
    requires 0 <= s.successCount < c.halfOpenMaxCalls && s.successCount + |calls| <= c.halfOpenMaxCalls
    ensures From(c, s, calls).mode == if s.successCount + |calls| == c.halfOpenMaxCalls then Closed else HalfOpen
    ensures s.successCount + |calls| == c.halfOpenMaxCalls ==> From(c, s, calls).consecutiveFailures == 0
    ensures Executions(c, s, calls) == |calls|
    decreases calls
  {
    if |calls| == 1 {
      assert calls[1..] == [];
    } else if |calls| > 1 {
      ProbesCount(c, Next(c, s, calls[0]), calls[1..]);
    }
  }

  /** After the timeout, as many successful probes as configured close the circuit, and not fewer; all run. */
  lemma ProbesClose(c: Config, s: State, calls: seq<Event>)
    requires Sane(c) && s.mode.Open? && AllCalls(calls, true) && 0 < |calls| <= c.halfOpenMaxCalls
    requires calls[0].start >= s.lastFailureTime + c.resetTimeout
    ensures From(c, s, calls).mode == if |calls| == c.halfOpenMaxCalls then Closed else HalfOpen
    ensures Executions(c, s, calls) == |calls|
  {
    if |calls| == 1 {
      assert calls[1..] == [];
    } else {
      ProbesCount(c, Next(c, s, calls[0]), calls[1..]);
    }
  }

  /** A failed probe, the first or a later one, opens the circuit again from its own end on. */
  lemma ProbeFails(c: Config, s: State, e: Event)
    requires e.Call? && !e.ok && (s.mode.HalfOpen? || (s.mode.Open? && e.start >= s.lastFailureTime + c.resetTimeout))
    ensures Next(c, s, e).mode.Open? && Next(c, s, e).lastFailureTime == e.finish
  {
  }

  /** A reset closes the circuit and forgets everything. */
  lemma ResetForgives(c: Config, s: State, at: int)
    ensures Next(c, s, Reset(at)).mode.Closed? && Next(c, s, Reset(at)).consecutiveFailures == 0
    ensures forall start :: !Refuses(c, Next(c, s, Reset(at)), start)
  {
  }

  // ----- How much load an unhealthy function sees -----

  /** Calls follow one another on a clock that starts no earlier than `from`; no resets. */
  predicate Timed(from: int, events: seq<Event>)
    decreases events
  {
    events == [] ||
    (events[0].Call? && from <= events[0].start <= events[0].finish && Timed(events[0].finish, events[1..]))
  }

  function End(from: int, events: seq<Event>): int
    decreases events
  {
    if events == [] then from
    else if events[0].Call? then End(events[0].finish, events[1..])
    else End(events[0].at, events[1..])
  }

  lemma {:induction false} EndsLater(from: int, events: seq<Event>)
    requires Timed(from, events)
    ensures from <= End(from, events)
    decreases events
  {
    if events != [] { EndsLater(events[0].finish, events[1..]); }
  }

  /** The moments the circuit enters Open when `events` run from state `s`. */
  function Openings(c: Config, s: State, events: seq<Event>): seq<int>
    decreases events
  {
    if events == [] then []
    else
      var e, s' := events[0], Next(c, s, events[0]);
      (if e.Call? && !Refuses(c, s, e.start) && s'.mode.Open? then [e.finish] else []) + Openings(c, s', events[1..])
  }

  /** Consecutive openings are at least `resetTimeout` apart, and the first is if `s` is open already. */
  lemma {:induction false} OpeningsApart(c: Config, s: State, from: int, events: seq<Event>)
    requires Sane(c) && Timed(from, events)
    requires s.mode.Open? ==> s.lastFailureTime <= from
    ensures var t := Openings(c, s, events);
            && (t != [] ==> t[0] >= from && (s.mode.Open? ==> t[0] >= s.lastFailureTime + c.resetTimeout))
            && forall k :: 0 < k < |t| ==> t[k] >= t[k - 1] + c.resetTimeout
    decreases events
  {
    if events != [] {
      OpeningsApart(c, Next(c, s, events[0]), events[0].finish, events[1..]);
    }
  }

  ghost predicate AllFail(events: seq<Event>) {
    forall k :: 0 <= k < |events| ==> events[k].Call? && !events[k].ok
  }

  /** How often the function really runs. */
  function Executions(c: Config, s: State, events: seq<Event>): nat
    decreases events
  {
    if events == [] then 0
    else
      (if events[0].Call? && !Refuses(c, s, events[0].start) then 1 else 0)
        + Executions(c, Next(c, s, events[0]), events[1..])
  }

  /** Failures still allowed before the circuit is open. */
  function Allowance(c: Config, s: State): int {
    match s.mode
    case Closed => if s.consecutiveFailures < c.failureThreshold then c.failureThreshold - s.consecutiveFailures else 1
    case HalfOpen => 1
    case Open => 0
  }

  lemma {:induction false} FailingLoad(c: Config, s: State, from: int, events: seq<Event>)
    requires Sane(c) && Timed(from, events) && AllFail(events)
    ensures var since := if s.mode.Open? then s.lastFailureTime else from;
            (Executions(c, s, events) - Allowance(c, s)) * c.resetTimeout <= End(from, events) - since
            || Executions(c, s, events) == 0
    decreases events
  {
    EndsLater(from, events);
    if events != [] {
      var e, rest := events[0], events[1..];
      var s' := Next(c, s, e);
      assert AllFail(rest);
      FailingLoad(c, s', e.finish, rest);
      EndsLater(e.finish, rest);
      var n := Executions(c, s', rest);
      if !Refuses(c, s, e.start) {
        assert Allowance(c, s') == Allowance(c, s) - 1 || s.mode.Open?;
        if s.mode.Open? {
          assert (n + 1) * c.resetTimeout == n * c.resetTimeout + c.resetTimeout;
        }
        if n == 0 && !s.mode.Open? { OneRun(Allowance(c, s), c.resetTimeout); }
      }
    }
  }

  lemma OneRun(a: int, t: int)
    requires a >= 1 && t > 0
    ensures (1 - a) * t <= 0
  {
  }

  /**
   Load bound over any window: whatever happened before, if every run of the function fails during a
   window of length T without resets, it runs at most `failureThreshold + T / resetTimeout` times.
   */
  lemma FailingLoadBound(c: Config, created: int, before: seq<Event>, from: int, window: seq<Event>)
    requires Sane(c) && Timed(from, window) && AllFail(window)
    ensures Executions(c, Run(c, created, before), window)
         <= c.failureThreshold + (End(from, window) - from) / c.resetTimeout
  {
    var s := Run(c, created, before);
    EndsLater(from, window);
    var n, t := Executions(c, s, window), End(from, window) - from;
    BreakerRefinesHistory(c, created, before);
    AnyWindow(c, s, from, window);
    if n > c.failureThreshold {
      Quotient(n - c.failureThreshold, t, c.resetTimeout);
    } else {
      Quotient(0, t, c.resetTimeout);
    }
  }

  lemma {:induction false} AnyWindow(c: Config, s: State, from: int, window: seq<Event>)
    requires Sane(c) && Timed(from, window) && AllFail(window)
    requires s.mode.Closed? ==> s.consecutiveFailures >= 0
    ensures (Executions(c, s, window) - c.failureThreshold) * c.resetTimeout <= End(from, window) - from
    decreases window
  {
    var n := Executions(c, s, window);
    EndsLater(from, window);
    FailingLoad(c, s, from, window);
    if n <= c.failureThreshold {
      NonPositive(n - c.failureThreshold, c.resetTimeout);
    } else if s.mode.Open? {
      if Refuses(c, s, window[0].start) {
        AnyWindow(c, s, window[0].finish, window[1..]);
      } else {
        FailingLoad(c, Next(c, s, window[0]), window[0].finish, window[1..]);
        Scale(n - c.failureThreshold, n - 1, c.resetTimeout);
      }
    } else {
      Scale(n - c.failureThreshold, n - Allowance(c, s), c.resetTimeout);
    }
  }

  lemma NonPositive(a: int, t: int)
    requires a <= 0 && t > 0
    ensures a * t <= 0
  {
  }

  lemma Scale(a: int, b: int, t: int)
    requires a <= b && t > 0
    ensures a * t <= b * t
  {
  }

  lemma Quotient(q: int, t: int, d: int)
    requires d > 0 && q * d <= t
    ensures q <= t / d
  {
    assert t == t / d * d + t % d;
    if q > t / d { Scale(t / d + 1, q, d); }
  }
}
