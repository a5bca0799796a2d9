/**
 Retry with exponential backoff. The multiplier is a real number and the backoff is rounded down to
 whole nanoseconds; a product beyond the range of a 64-bit duration converts to a value that the
 hardware chooses. Attempts, cancellation and random draws are given as functions of their number.
 */
module Retry {
  import opened Prelude
  import opened GoTime

  const MILLISECOND: int := 1_000_000

  datatype Config = Config(maxRetries: int, initialBackoff: int, maxBackoff: int, multiplier: real, jitter: bool)

  predicate Sane(c: Config) {
    c.maxRetries >= 0 && 0 < c.initialBackoff && 0 < c.maxBackoff < TWO_63 && c.multiplier > 0.0
  }

  /** What Do puts in the place of settings out of range. */
  function Normalized(c: Config): (r: Config)
    requires c.maxBackoff < TWO_63
    ensures Sane(r) && r.jitter == c.jitter
    ensures c.maxRetries >= 0 ==> r.maxRetries == c.maxRetries
    ensures c.initialBackoff > 0 ==> r.initialBackoff == c.initialBackoff
    ensures c.maxBackoff > 0 ==> r.maxBackoff == c.maxBackoff
    ensures c.multiplier > 0.0 ==> r.multiplier == c.multiplier
    ensures c.maxRetries < 0 ==> r.maxRetries == 0
    ensures c.initialBackoff <= 0 ==> r.initialBackoff == DEFAULT.initialBackoff
    ensures c.maxBackoff <= 0 ==> r.maxBackoff == DEFAULT.maxBackoff
    ensures c.multiplier <= 0.0 ==> r.multiplier == DEFAULT.multiplier
  {
    Config(if c.maxRetries < 0 then 0 else c.maxRetries,
           if c.initialBackoff <= 0 then 100 * MILLISECOND else c.initialBackoff,
           if c.maxBackoff <= 0 then 30 * SECOND else c.maxBackoff,
           if c.multiplier <= 0.0 then 2.0 else c.multiplier,
           c.jitter)
  }

  const DEFAULT: Config := Config(3, 100 * MILLISECOND, 30 * SECOND, 2.0, true)

  // ----- Backoff -----

  function Pow(m: real, k: nat): real {
    if k == 0 then 1.0 else m * Pow(m, k - 1)
  }

  /** The exponential, before rounding and capping. */
  function Exponential(c: Config, k: nat): real {
    c.initialBackoff as real * Pow(c.multiplier, k)
  }

  /** Conversion to a duration; `indefinite` is what an out-of-range conversion yields. */
  function ToDuration(x: real, indefinite: int): int {
    if x < TWO_63 as real then x.Floor else indefinite
  }

  function PreJitter(c: Config, k: nat, indefinite: int): int {
    var d := ToDuration(Exponential(c, k), indefinite);
    if d > c.maxBackoff then c.maxBackoff else d
  }

  /** What the documentation promises: initial x multiplier^k, capped. */
  function Promised(c: Config, k: nat): int {
    var d := Exponential(c, k).Floor;
    if d > c.maxBackoff then c.maxBackoff else d
  }

  /** `d` and a random part of its half, as a 64-bit sum, or `None` when the draw panics. */
  function Jittered(d: int, draw: nat): Option<int> {
    var half := TruncDiv(d, 2);
    if half <= 0 then None else Some(Wrap64(d + draw % half))
  }

  /** The wait after attempt `k`. */
  function Wait(c: Config, k: nat, indefinite: int, draw: nat): Option<int> {
    var d := PreJitter(c, k, indefinite);
    if c.jitter then Jittered(d, draw) else Some(d)
  }

  /**
   Exactly when the wait is the promised one: the exponential fits a duration, or the hardware's
   substitute is large enough to be capped. On hardware that yields the smallest integer, one
   overflow makes the wait negative instead of maximal.
   */
  lemma BackoffExactIff(c: Config, k: nat, indefinite: int)
    requires Sane(c)
    ensures PreJitter(c, k, indefinite) == Promised(c, k)
       <==> Exponential(c, k) < TWO_63 as real || indefinite >= c.maxBackoff
  {
  }

  lemma {:induction false} PowPositive(m: real, k: nat)
    requires m > 0.0
    ensures Pow(m, k) > 0.0
    ensures m >= 1.0 ==> Pow(m, k) >= 1.0 && Pow(m, k + 1) >= Pow(m, k)
  {
    if k > 0 { PowPositive(m, k - 1); }
    assert Pow(m, k + 1) == m * Pow(m, k);
  }

  lemma ScaleUp(a: real, x: real, y: real)
    requires a > 0.0 && x <= y
    ensures a * x <= a * y
  {
  }

  /** The exponential starts at the initial backoff and grows by the multiplier with every attempt. */
  lemma ExponentialGrows(c: Config, k: nat)
    ensures Exponential(c, 0) == c.initialBackoff as real
    ensures Exponential(c, k + 1) == Exponential(c, k) * c.multiplier
  {
    assert Pow(c.multiplier, k + 1) == c.multiplier * Pow(c.multiplier, k);
    Reorder(c.initialBackoff as real, c.multiplier, Pow(c.multiplier, k));
  }

  lemma Reorder(a: real, m: real, p: real)
    ensures a * (m * p) == a * p * m
  {
  }

  /** What is promised is the exponential in whole nanoseconds, but never more than the cap. */
  lemma PromisedIs(c: Config, k: nat)
    ensures Promised(c, k) <= c.maxBackoff
    ensures Promised(c, k) == c.maxBackoff || Promised(c, k) as real <= Exponential(c, k) < (Promised(c, k) + 1) as real
    ensures Exponential(c, k) >= c.maxBackoff as real ==> Promised(c, k) == c.maxBackoff
  {
  }

  /** With a multiplier of at least one the promised waits never shrink. */
  lemma BackoffGrows(c: Config, k: nat)
    requires Sane(c) && c.multiplier >= 1.0
    ensures Promised(c, k) <= Promised(c, k + 1)
  {
    PowPositive(c.multiplier, k);
    ScaleUp(c.initialBackoff as real, Pow(c.multiplier, k), Pow(c.multiplier, k + 1));
  }

  /**
   The jittered wait exists iff at least two nanoseconds are to be waited. It adds less than half iff
   the sum fits 64 bits; otherwise it is negative.
   */
  lemma JitterIff(c: Config, k: nat, indefinite: int, draw: nat)
    requires Sane(c) && c.jitter
    ensures var d, wait := PreJitter(c, k, indefinite), Wait(c, k, indefinite, draw);
            && (wait.None? <==> d < 2)
            && (wait.Some? ==> (d <= wait.value && 2 * wait.value < 3 * d <==> d + draw % (d / 2) < TWO_63))
            && (wait.Some? && d + draw % (d / 2) >= TWO_63 ==> wait.value < 0)
  {
    JitterOf(PreJitter(c, k, indefinite), draw);
  }

  lemma JitterOf(d: int, draw: nat)
    requires d < TWO_63
    ensures Jittered(d, draw).None? <==> d < 2
    ensures d >= 2 ==> var v := draw % (d / 2);
                       0 <= v < d / 2 && Jittered(d, draw).value == if d + v < TWO_63 then d + v else d + v - TWO_64
  {
    if d >= 2 {
      Remainder(draw, d / 2);
      WrapsOnce(d + draw % (d / 2));
    }
  }

  lemma Remainder(a: nat, b: nat)
    requires b > 0
    ensures 0 <= a % b < b
  {
  }

  /**
   Exactly when no draw makes the wait exceed `maxBackoff`, which the configuration calls the longest
   wait: without jitter, when the largest draw still fits under the cap, or when the cap is the largest
   duration, so that whatever exceeds it wraps.
   */
  lemma CapKeptIff(c: Config, k: nat, indefinite: int)
    requires Sane(c)
    ensures (forall draw: nat ::
               Wait(c, k, indefinite, draw).Some? ==> Wait(c, k, indefinite, draw).value <= c.maxBackoff)
       <==> !c.jitter || PreJitter(c, k, indefinite) < 2
            || PreJitter(c, k, indefinite) + PreJitter(c, k, indefinite) / 2 - 1 <= c.maxBackoff
            || c.maxBackoff == MAX_INT
  {
    var d, cap := PreJitter(c, k, indefinite), c.maxBackoff;
    assert d <= cap;
    if c.jitter {
      CapOfJitter(d, cap);
      assert forall draw: nat :: Wait(c, k, indefinite, draw) == Jittered(d, draw);
    }
  }

  lemma CapOfJitter(d: int, cap: int)
    requires d <= cap <= MAX_INT
    ensures (forall draw: nat :: Jittered(d, draw).Some? ==> Jittered(d, draw).value <= cap)
       <==> d < 2 || d + d / 2 - 1 <= cap || cap == MAX_INT
  {
    if d < 2 || d + d / 2 - 1 <= cap || cap == MAX_INT {
      forall draw: nat | Jittered(d, draw).Some? ensures Jittered(d, draw).value <= cap {
        JitterOf(d, draw);
      }
    } else {
      var over: nat := cap + 1 - d;
      SmallDraw(over, d / 2);
      JitterOf(d, over);
      assert Jittered(d, over) == Some(cap + 1);
    }
  }

  lemma SmallDraw(draw: nat, half: int)
    requires draw < half
    ensures draw % half == draw
  {
  }

  /** The default configuration with more retries than the backoff can double. */
  const PATIENT: Config := DEFAULT.(maxRetries := 38)

  /** Attempt 37 is the first whose backoff overflows, and has no wait; every one before has. */
  lemma PatientOverflows(k: nat, draw: nat)
    ensures k < 37 ==> Exponential(PATIENT, k) < TWO_63 as real && Wait(PATIENT, k, -TWO_63, draw).Some?
    ensures k == 37 ==> Exponential(PATIENT, k) >= TWO_63 as real && Wait(PATIENT, k, -TWO_63, draw).None?
  {
    PowerOfTwo(k);
    PowerOf36();
    if k < 37 {
      PowerUp(k, 36);
      PatientBackoff(k);
    }
    JitterOf(PreJitter(PATIENT, k, -TWO_63), draw);
  }

  lemma PatientBackoff(k: nat)
    requires 1 <= PowerOfTwoInt(k) <= 0x10_0000_0000 && Pow(2.0, k) == PowerOfTwoInt(k) as real
    ensures Exponential(PATIENT, k) == (100 * MILLISECOND * PowerOfTwoInt(k)) as real
    ensures Exponential(PATIENT, k) < TWO_63 as real && 2 <= PreJitter(PATIENT, k, -TWO_63) < TWO_63
  {
  }

  lemma {:induction false} PowerUp(a: nat, b: nat)
    requires a <= b
    ensures 1 <= PowerOfTwoInt(a) <= PowerOfTwoInt(b)
    decreases b
  {
    if a < b {
      PowerUp(a, b - 1);
    } else if a > 0 {
      PowerUp(a - 1, b - 1);
    }
  }

  function PowerOfTwoInt(k: nat): int {
    if k == 0 then 1 else 2 * PowerOfTwoInt(k - 1)
  }

  lemma {:induction false} PowerOfTwo(k: nat)
    ensures Pow(2.0, k) == PowerOfTwoInt(k) as real
  {
    if k > 0 { PowerOfTwo(k - 1); }
  }

  lemma {:induction false} PowerSum(a: nat, b: nat)
    ensures PowerOfTwoInt(a + b) == PowerOfTwoInt(a) * PowerOfTwoInt(b)
  {
    if a > 0 { PowerSum(a - 1, b); }
  }

  lemma PowerOf9()
    ensures PowerOfTwoInt(9) == 512
  {
    assert PowerOfTwoInt(1) == 2 && PowerOfTwoInt(2) == 4 && PowerOfTwoInt(3) == 8;
    PowerSum(3, 3);
    PowerSum(6, 3);
  }

  lemma PowerOf36()
    ensures PowerOfTwoInt(36) == 0x10_0000_0000
    ensures PowerOfTwoInt(37) == 2 * PowerOfTwoInt(36)
  {
    PowerOf9();
    PowerSum(9, 9);
    PowerSum(18, 18);
    PowerSum(1, 36);
  }

  // ----- The loop -----

  datatype Outcome = Succeeded | Failed(error: int) | ContextError | JitterPanic

  /** Attempt `k` is the last of its own accord: it succeeds, must not be retried, or is the last allowed. */
  predicate Final(c: Config, attempts: nat -> Option<int>, retryable: Option<int -> bool>, k: nat) {
    || attempts(k).None?
    || (retryable.Some? && !retryable.value(attempts(k).value))
    || k >= c.maxRetries
  }

  function Sum(s: seq<int>): int {
    if s == [] then 0 else Sum(s[..|s| - 1]) + s[|s| - 1]
  }

  /** The first `n` attempts failed with errors that may be retried. */
  ghost predicate Retried(attempts: nat -> Option<int>, retryable: Option<int -> bool>, n: int) {
    forall k :: 0 <= k < n ==> attempts(k).Some? && (retryable.Some? ==> retryable.value(attempts(k).value))
  }

  lemma RetriedOnce(attempts: nat -> Option<int>, retryable: Option<int -> bool>, n: nat)
    requires Retried(attempts, retryable, n) && attempts(n).Some?
    requires retryable.Some? ==> retryable.value(attempts(n).value)
    ensures Retried(attempts, retryable, n + 1)
  {
  }

  lemma WaitedOnce(c: Config, waits: seq<int>, indefinite: int, draws: nat -> nat, wait: int)
    requires Waited(c, waits, indefinite, draws) && Some(wait) == Wait(c, |waits|, indefinite, draws(|waits|))
    ensures Waited(c, waits + [wait], indefinite, draws)
  {
  }

  ghost predicate Quiet(cancelled: nat -> bool, n: int) {
    forall k :: 0 <= k < n ==> !cancelled(k)
  }

  ghost predicate Waited(c: Config, waits: seq<int>, indefinite: int, draws: nat -> nat) {
    forall k :: 0 <= k < |waits| ==> Some(waits[k]) == Wait(c, k, indefinite, draws(k))
  }

  /** Nothing is cancelled, and no draw panics while retries remain. */
  ghost predicate Undisturbed(c: Config, cancelledBefore: nat -> bool, cancelledInWait: nat -> bool, indefinite: int, draws: nat -> nat) {
    && (forall k :: 0 <= k <= c.maxRetries ==> !cancelledBefore(k))
    && (forall k :: 0 <= k < c.maxRetries ==> !cancelledInWait(k) && Wait(c, k, indefinite, draws(k)).Some?)
  }

  /** Retried attempts short of the last allowed one are not final. */
  lemma RetriedIsNotFinal(c: Config, attempts: nat -> Option<int>, retryable: Option<int -> bool>, n: int)
    requires Retried(attempts, retryable, n) && n <= c.maxRetries
    ensures forall k :: 0 <= k < n ==> !Final(c, attempts, retryable, k)
  {
  }

  /**
   Makes attempts until one is final. `attempts(k)` is attempt `k`'s error, `cancelledBefore(k)` the
   check before it, `cancelledInWait(k)` the wait after it ended by cancellation.
   */
  method Do(config: Config, attempts: nat -> Option<int>, retryable: Option<int -> bool>,
            cancelledBefore: nat -> bool, cancelledInWait: nat -> bool, indefinite: int, draws: nat -> nat)
    returns (r: Outcome, calls: nat, waits: seq<int>)
    requires config.maxBackoff < TWO_63
    ensures calls <= Normalized(config).maxRetries + 1 && |waits| <= Normalized(config).maxRetries
    ensures Waited(Normalized(config), waits, indefinite, draws)
    ensures forall k :: 0 <= k < calls - 1 ==> !Final(Normalized(config), attempts, retryable, k)
    ensures r.Succeeded? || r.Failed? ==>
              calls > 0 && Final(Normalized(config), attempts, retryable, calls - 1) && |waits| == calls - 1
    ensures r.Succeeded? <==> calls > 0 && attempts(calls - 1).None?
    ensures r.Failed? ==> attempts(calls - 1) == Some(r.error)
    ensures r.Failed? ==> calls == Normalized(config).maxRetries + 1 || (retryable.Some? && !retryable.value(r.error))
    ensures Undisturbed(Normalized(config), cancelledBefore, cancelledInWait, indefinite, draws) ==>
              && (r.Succeeded? || r.Failed?)
              && (r.Failed? <==> forall k :: 0 <= k < calls ==> attempts(k).Some?)
    ensures r.ContextError? ==> |waits| == calls && (cancelledBefore(calls) || (calls > 0 && cancelledInWait(calls - 1)))
    ensures (forall k :: 0 <= k < calls ==> !cancelledBefore(k)) && (forall k :: 0 <= k < calls - 1 ==> !cancelledInWait(k))
    ensures r.JitterPanic? ==>
              calls > 0 && |waits| == calls - 1 && Wait(Normalized(config), calls - 1, indefinite, draws(calls - 1)).None?
    ensures r.ContextError? || r.JitterPanic? ==>
              forall k :: 0 <= k < calls ==> !Final(Normalized(config), attempts, retryable, k)
  {
    r, calls, waits := Attempt(Normalized(config), attempts, retryable, cancelledBefore, cancelledInWait, indefinite, draws);
    RetriedIsNotFinal(Normalized(config), attempts, retryable, if r.Succeeded? || r.Failed? then calls - 1 else calls);
  }

  /** The loop, with settings in range. */
  method Attempt(cfg: Config, attempts: nat -> Option<int>, retryable: Option<int -> bool>,
                 cancelledBefore: nat -> bool, cancelledInWait: nat -> bool, indefinite: int, draws: nat -> nat)
    returns (r: Outcome, calls: nat, waits: seq<int>)
    requires Sane(cfg)
    ensures calls <= cfg.maxRetries + 1 && |waits| <= cfg.maxRetries && Waited(cfg, waits, indefinite, draws)
    ensures Quiet(cancelledBefore, calls) && Quiet(cancelledInWait, calls - 1)
    ensures r.Succeeded? ==>
              && calls > 0 && attempts(calls - 1).None? && |waits| == calls - 1
              && Retried(attempts, retryable, calls - 1)
    ensures r.Failed? ==>
              && calls > 0 && attempts(calls - 1) == Some(r.error) && |waits| == calls - 1
              && Retried(attempts, retryable, calls - 1)
              && (calls == cfg.maxRetries + 1 || (retryable.Some? && !retryable.value(r.error)))
    ensures r.ContextError? ==>
              && |waits| == calls && Retried(attempts, retryable, calls)
              && (cancelledBefore(calls) || (calls > 0 && cancelledInWait(calls - 1)))
    ensures r.JitterPanic? ==>
              && 0 < calls <= cfg.maxRetries && |waits| == calls - 1 && Retried(attempts, retryable, calls)
              && Wait(cfg, calls - 1, indefinite, draws(calls - 1)).None?
  {
    calls, waits := 0, [];
    while calls <= cfg.maxRetries
      invariant calls <= cfg.maxRetries && |waits| == calls && Waited(cfg, waits, indefinite, draws)
      invariant Retried(attempts, retryable, calls) && Quiet(cancelledBefore, calls) && Quiet(cancelledInWait, calls)
      decreases cfg.maxRetries - calls
    {
      if cancelledBefore(calls) { return ContextError, calls, waits; }
      var lastErr := attempts(calls);
      if lastErr.None? { return Succeeded, calls + 1, waits; }
      if retryable.Some? && !retryable.value(lastErr.value) { return Failed(lastErr.value), calls + 1, waits; }
      if calls == cfg.maxRetries { return Failed(lastErr.value), calls + 1, waits; }
      var wait := Wait(cfg, calls, indefinite, draws(calls));
      if wait.None? { return JitterPanic, calls + 1, waits; }
      RetriedOnce(attempts, retryable, calls);
      WaitedOnce(cfg, waits, indefinite, draws, wait.value);
      waits := waits + [wait.value];
      calls := calls + 1;
      if cancelledInWait(calls - 1) { return ContextError, calls, waits; }
    }
    assert false;
  }

  /**
   What that overflow does: retried 38 times, an operation that keeps failing ends in a panic of the
   jitter after its 38th call, whatever the draws.
   */
  method PatientPanics(error: int, draws: nat -> nat) returns (r: Outcome, calls: nat, waits: seq<int>)
    ensures r == JitterPanic && calls == 38 && |waits| == 37
  {
    r, calls, waits := Do(PATIENT, _ => Some(error), None, _ => false, _ => false, -TWO_63, draws);
    if |waits| > 37 { PatientOverflows(37, draws(37)); }
    if r.JitterPanic? { PatientOverflows(calls - 1, draws(calls - 1)); }
  }

  /** The first final attempt is unique, so an undisturbed run makes exactly that many calls. */
  lemma FirstFinalUnique(c: Config, attempts: nat -> Option<int>, retryable: Option<int -> bool>, j: nat, k: nat)
    requires Final(c, attempts, retryable, j) && forall i: nat :: i < j ==> !Final(c, attempts, retryable, i)
    requires Final(c, attempts, retryable, k) && forall i: nat :: i < k ==> !Final(c, attempts, retryable, i)
    ensures j == k && j <= (if c.maxRetries < 0 then 0 else c.maxRetries)
  {
    if j < k { assert false; }
    if k < j { assert false; }
    if c.maxRetries < j && c.maxRetries >= 0 { assert Final(c, attempts, retryable, c.maxRetries); }
    if c.maxRetries < 0 && j > 0 { assert Final(c, attempts, retryable, 0); }
  }

  /** `unit` counted `n` times. */
  function Times(unit: int, n: nat): int {
    if n == 0 then 0 else Times(unit, n - 1) + unit
  }

  lemma {:induction false} TimesIsProduct(unit: int, n: nat)
    ensures Times(unit, n) == unit * n
  {
    if n > 0 { TimesIsProduct(unit, n - 1); }
  }

  lemma {:induction false} TotalWait(c: Config, waits: seq<int>, indefinite: int, draws: nat -> nat)
    requires Sane(c)
    requires forall k :: 0 <= k < |waits| ==> Some(waits[k]) == Wait(c, k, indefinite, draws(k))
    ensures 2 * Sum(waits) <= Times(3 * c.maxBackoff, |waits|)
  {
    if waits != [] {
      var k := |waits| - 1;
      var front := waits[..k];
      assert forall i :: 0 <= i < |front| ==> front[i] == waits[i];
      TotalWait(c, front, indefinite, draws);
      OneWait(c, k, indefinite, draws(k));
    }
  }

  lemma OneWait(c: Config, k: nat, indefinite: int, draw: nat)
    requires Sane(c)
    ensures Wait(c, k, indefinite, draw).Some? ==> 2 * Wait(c, k, indefinite, draw).value <= 3 * c.maxBackoff
  {
    if c.jitter { JitterOf(PreJitter(c, k, indefinite), draw); }
  }

  /** Over a whole run: however it ends, all waiting together is at most maxRetries x 3/2 x maxBackoff. */
  lemma WholeRunWait(c: Config, waits: seq<int>, indefinite: int, draws: nat -> nat)
    requires Sane(c) && |waits| <= c.maxRetries
    requires forall k :: 0 <= k < |waits| ==> Some(waits[k]) == Wait(c, k, indefinite, draws(k))
    ensures 2 * Sum(waits) <= 3 * c.maxBackoff * c.maxRetries
  {
    TotalWait(c, waits, indefinite, draws);
    TimesIsProduct(3 * c.maxBackoff, |waits|);
    Multiples(3 * c.maxBackoff, |waits|, c.maxRetries);
  }

  lemma Multiples(a: nat, x: nat, y: nat)
    requires x <= y
    ensures a * x <= a * y
  {
  }
}
