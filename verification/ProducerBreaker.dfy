/**
 The Kafka producer's circuit breaker, shared by any number of publishers and reset callbacks.
 Every atomic operation, flag access, lock acquisition and release is a step of its own, and any
 thread may move at any time. The read-write lock is not a field: who holds it follows from where
 the threads stand, and acquiring it waits until nobody is in the way.
 */
module ProducerBreaker {

  const THRESHOLD: int := 5

  /** Where a thread stands: the operation it will perform next. */
  datatype PC =
    // Publish and PublishBatch
    | Idle | CheckFlag | CheckUnlock(seenOpen: bool) | Writing
    // recordSuccess
    | SAdd | SZero | SRLock | SRFlag | SRLoad | SRUnlock(shouldClose: bool)
    | SLock | SFlag | SLoad | SClose | SReset | SUnlock
    // recordFailure
    | FAdd | FZero | FRLock | FRFlag | FRLoad | FRUnlock(shouldOpen: bool)
    | FLock | FFlag | FLoad | FOpen | FReset | FArm | FUnlock
    // the reset timer's callback
    | CLock | CClose | CZeroF | CZeroS | CUnlock | CDone

  /** The timer in the producer's field: never set, running, or fired or stopped. */
  datatype Timer = NoTimer | Armed | Spent

  datatype State = State(failures: int, successes: int, open: bool, timer: Timer, shutdown: bool, pcs: seq<PC>)

  /** How a publish attempt ends: recorded as a success, as a failure, or abandoned without a record. */
  datatype Outcome = Succeeded | Failed | Abandoned

  datatype Action = Move(thread: nat, outcome: Outcome) | Spawn | Fire | Shutdown

  predicate Reads(p: PC) {
    p.CheckFlag? || p.CheckUnlock? || p.SRFlag? || p.SRLoad? || p.SRUnlock? || p.FRFlag? || p.FRLoad? || p.FRUnlock?
  }

  predicate Writes(p: PC) {
    || p.SFlag? || p.SLoad? || p.SClose? || p.SReset? || p.SUnlock?
    || p.FFlag? || p.FLoad? || p.FOpen? || p.FReset? || p.FArm? || p.FUnlock?
    || p.CClose? || p.CZeroF? || p.CZeroS? || p.CUnlock?
  }

  predicate WantsRead(p: PC) {
    p.Idle? || p.SRLock? || p.FRLock?
  }

  predicate WantsWrite(p: PC) {
    p.SLock? || p.FLock? || p.CLock?
  }

  predicate NoWriter(s: State) {
    forall j :: 0 <= j < |s.pcs| ==> !Writes(s.pcs[j])
  }

  predicate NoHolder(s: State) {
    forall j :: 0 <= j < |s.pcs| ==> !Writes(s.pcs[j]) && !Reads(s.pcs[j])
  }

  predicate Enabled(s: State, a: Action) {
    match a
    case Move(i, _) =>
      && i < |s.pcs| && !s.pcs[i].CDone?
      && (WantsRead(s.pcs[i]) ==> NoWriter(s))
      && (WantsWrite(s.pcs[i]) ==> NoHolder(s))
    case Spawn => true
    case Fire => s.timer.Armed?
    case Shutdown => NoHolder(s)
  }

  /** `atomic.Int32.Add(1)`. */
  function Inc32(x: int): int {
    if x == 0x7fff_ffff then -0x8000_0000 else x + 1
  }

  /** Where a thread stands after its step, from what the step reads of the shared state. */
  function Goto(s: State, p: PC, o: Outcome): PC {
    match p
    case Idle => CheckFlag
    case CheckFlag => CheckUnlock(s.open)
    case CheckUnlock(seenOpen) => if seenOpen then Idle else Writing
    case Writing => (match o case Succeeded => SAdd case Failed => FAdd case Abandoned => Idle)

    case SAdd => SZero
    case SZero => SRLock
    case SRLock => SRFlag
    case SRFlag => if s.open then SRLoad else SRUnlock(false)
    case SRLoad => SRUnlock(s.successes >= THRESHOLD)
    case SRUnlock(shouldClose) => if shouldClose then SLock else Idle
    case SLock => SFlag
    case SFlag => if s.open then SLoad else SUnlock
    case SLoad => if s.successes >= THRESHOLD then SClose else SUnlock
    case SClose => SReset
    case SReset => SUnlock
    case SUnlock => Idle

    case FAdd => FZero
    case FZero => FRLock
    case FRLock => FRFlag
    case FRFlag => if !s.open then FRLoad else FRUnlock(false)
    case FRLoad => FRUnlock(s.failures >= THRESHOLD)
    case FRUnlock(shouldOpen) => if shouldOpen then FLock else Idle
    case FLock => FFlag
    case FFlag => if !s.open then FLoad else FUnlock
    case FLoad => if s.failures >= THRESHOLD then FOpen else FUnlock
    case FOpen => FReset
    case FReset => FArm
    case FArm => FUnlock
    case FUnlock => Idle

    case CLock => CClose
    case CClose => CZeroF
    case CZeroF => CZeroS
    case CZeroS => CUnlock
    case CUnlock => CDone
    case CDone => CDone
  }

  predicate AddsFailure(p: PC) { p.FAdd? }

  predicate ZeroesFailures(p: PC) { p.SZero? || p.FReset? || p.CZeroF? }

  predicate AddsSuccess(p: PC) { p.SAdd? }

  /** The load that decides, under the write lock. */
  predicate LoadsFailures(p: PC) { p.FLoad? }

  predicate LoadsSuccesses(p: PC) { p.SLoad? }

  predicate ZeroesSuccesses(p: PC) { p.FZero? || p.SReset? || p.CZeroS? }

  /** The write of a step from position `p` to the shared state. */
  function Write(s: State, p: PC): State {
    State(
      if AddsFailure(p) then Inc32(s.failures) else if ZeroesFailures(p) then 0 else s.failures,
      if AddsSuccess(p) then Inc32(s.successes) else if ZeroesSuccesses(p) then 0 else s.successes,
      if p.FOpen? then true else if p.SClose? || p.CClose? then false else s.open,
      if p.FArm? then Armed else s.timer,
      s.shutdown,
      s.pcs)
  }

  /** A step of thread `i`: its write, then its new position. */
  function Do(s: State, i: nat, o: Outcome): State
    requires i < |s.pcs|
  {
    Write(s, s.pcs[i]).(pcs := s.pcs[i := Goto(s, s.pcs[i], o)])
  }

  /** `Fire` starts the callback of the running timer; `Shutdown` is Close stopping that timer. */
  function Next(s: State, a: Action): State
    requires Enabled(s, a)
  {
    match a
    case Move(i, o) => Do(s, i, o)
    case Spawn => s.(pcs := s.pcs + [Idle])
    case Fire => s.(timer := Spent, pcs := s.pcs + [CLock])
    case Shutdown => s.(shutdown := true, timer := if s.timer.Armed? then Spent else s.timer)
  }

  ghost predicate StepAt(trace: seq<State>, actions: seq<Action>, k: nat)
    requires |trace| == |actions| + 1 && k < |actions|
  {
    Enabled(trace[k], actions[k]) && trace[k + 1] == Next(trace[k], actions[k])
  }

  /** `trace` is a run from a fresh producer: it starts with no threads and follows `actions`. */
  ghost predicate IsRun(trace: seq<State>, actions: seq<Action>) {
    && |trace| == |actions| + 1
    && trace[0] == State(0, 0, false, NoTimer, false, [])
    && forall k: nat :: k < |actions| ==> StepAt(trace, actions, k)
  }

  // ----- Inductive invariants -----

  ghost predicate Somewhere(s: State, f: PC -> bool) {
    exists j :: 0 <= j < |s.pcs| && f(s.pcs[j])
  }

  /** The lock does its work: a writer is alone. */
  ghost predicate Exclusive(s: State) {
    forall i, j :: 0 <= i < |s.pcs| && 0 <= j < |s.pcs| && i != j && Writes(s.pcs[i]) ==>
      !Writes(s.pcs[j]) && !Reads(s.pcs[j])
  }

  /** Between its increment and the store that zeroes the other counter. */
  predicate BetweenAddAndZero(p: PC) {
    p.SZero? || p.FZero?
  }

  ghost predicate OneCounter(s: State) {
    s.failures != 0 && s.successes != 0 ==> Somewhere(s, BetweenAddAndZero)
  }

  /** Bound either to open the circuit if the failures stand, or to zero the failures. */
  predicate WillAct(p: PC) {
    || p.FZero? || p.FRLock? || p.FRFlag? || p.FRLoad? || p == FRUnlock(true)
    || p.FLock? || p.FFlag? || p.FLoad? || p.FOpen?
    || p.SZero? || p.CZeroF?
  }

  predicate AboutToClose(p: PC) {
    p.SClose?
  }

  /** The threshold is reached while the circuit is closed, or a thread is committed to closing it. */
  ghost predicate Overdue(s: State) {
    (!s.open || Somewhere(s, AboutToClose)) && s.failures >= THRESHOLD
  }

  ghost predicate FailuresAnswered(s: State) {
    Overdue(s) ==> Somewhere(s, WillAct)
  }

  /** Will reach the step that closes the circuit, or arms the timer for it. */
  predicate WillReset(p: PC) {
    p.CLock? || p.CClose? || p.FReset? || p.FArm?
  }

  ghost predicate NeverStuck(s: State) {
    s.open && !s.shutdown ==> s.timer.Armed? || Somewhere(s, WillReset)
  }

  ghost predicate Inv(s: State) {
    Exclusive(s) && OneCounter(s) && FailuresAnswered(s) && NeverStuck(s)
  }

  /** Another thread's position survives a step of thread `i`. */
  lemma Others(s: State, i: nat, o: Outcome)
    requires i < |s.pcs|
    ensures |Do(s, i, o).pcs| == |s.pcs|
    ensures forall j :: 0 <= j < |s.pcs| && j != i ==> Do(s, i, o).pcs[j] == s.pcs[j]
  {
  }

  lemma ExclusiveKept(s: State, i: nat, o: Outcome)
    requires Enabled(s, Move(i, o)) && Exclusive(s)
    ensures Exclusive(Do(s, i, o))
  {
    Others(s, i, o);
    var s' := Do(s, i, o);
    assert Writes(s'.pcs[i]) ==> Writes(s.pcs[i]) || WantsWrite(s.pcs[i]);
    assert Reads(s'.pcs[i]) ==> Reads(s.pcs[i]) || WantsRead(s.pcs[i]);
  }

  lemma OneCounterKept(s: State, i: nat, o: Outcome)
    requires Enabled(s, Move(i, o)) && OneCounter(s)
    ensures OneCounter(Do(s, i, o))
  {
    Others(s, i, o);
    var s' := Do(s, i, o);
    if s'.failures != 0 && s'.successes != 0 {
      if BetweenAddAndZero(s'.pcs[i]) {
        assert Somewhere(s', BetweenAddAndZero);
      } else {
        var j :| 0 <= j < |s.pcs| && BetweenAddAndZero(s.pcs[j]);
        assert BetweenAddAndZero(s'.pcs[j]);
      }
    }
  }

  /** Steps other than the recheck in recordSuccess and a step to act find the threshold overdue. */
  lemma OverdueBefore(s: State, i: nat, o: Outcome)
    requires Enabled(s, Move(i, o)) && Overdue(Do(s, i, o)) && !WillAct(Do(s, i, o).pcs[i])
    requires !(s.pcs[i].SLoad? && s.successes >= THRESHOLD)
    ensures Overdue(s)
  {
    Others(s, i, o);
    var s' := Do(s, i, o);
    assert s.failures >= THRESHOLD;
    if !s'.open {
      assert s.open ==> s.pcs[i].SClose?;
      assert s.pcs[i].SClose? ==> AboutToClose(s.pcs[i]);
    } else {
      var j :| 0 <= j < |s'.pcs| && AboutToClose(s'.pcs[j]);
      assert AboutToClose(s.pcs[j]);
    }
  }

  /** A thread bound to act stays bound unless its own step answers the failures. */
  lemma StillWillAct(s: State, i: nat, o: Outcome)
    requires Enabled(s, Move(i, o)) && Exclusive(s) && WillAct(s.pcs[i]) && Overdue(Do(s, i, o))
    ensures WillAct(Do(s, i, o).pcs[i])
  {
    Others(s, i, o);
    var s' := Do(s, i, o);
    if s'.open {
      var k :| 0 <= k < |s'.pcs| && AboutToClose(s'.pcs[k]);
      assert Writes(s'.pcs[k]);
      if k != i { assert !Reads(s.pcs[i]) && !Writes(s.pcs[i]); }
    }
  }

  lemma FailuresAnsweredKept(s: State, i: nat, o: Outcome)
    requires Enabled(s, Move(i, o)) && Exclusive(s) && OneCounter(s) && FailuresAnswered(s)
    ensures FailuresAnswered(Do(s, i, o))
  {
    var s' := Do(s, i, o);
    if Overdue(s') && !WillAct(s'.pcs[i]) {
      var j: nat;
      if s.pcs[i].SLoad? && s.successes >= THRESHOLD {
        j :| 0 <= j < |s.pcs| && BetweenAddAndZero(s.pcs[j]);
      } else {
        OverdueBefore(s, i, o);
        j :| 0 <= j < |s.pcs| && WillAct(s.pcs[j]);
        if j == i { StillWillAct(s, i, o); }
      }
      Others(s, i, o);
      assert WillAct(s'.pcs[j]);
    }
  }

  lemma NeverStuckKept(s: State, i: nat, o: Outcome)
    requires Enabled(s, Move(i, o)) && NeverStuck(s)
    ensures NeverStuck(Do(s, i, o))
  {
    Others(s, i, o);
    var s' := Do(s, i, o);
    if s'.open && !s'.shutdown && !s'.timer.Armed? {
      if WillReset(s'.pcs[i]) {
        assert Somewhere(s', WillReset);
      } else {
        var j :| 0 <= j < |s.pcs| && WillReset(s.pcs[j]);
        assert WillReset(s'.pcs[j]);
      }
    }
  }

  lemma StillSomewhere(s: State, s': State, f: PC -> bool)
    requires s.pcs <= s'.pcs
    ensures Somewhere(s, f) ==> Somewhere(s', f)
  {
    if Somewhere(s, f) {
      var j :| 0 <= j < |s.pcs| && f(s.pcs[j]);
      assert f(s'.pcs[j]);
    }
  }

  lemma JoinedExclusive(s: State, s': State, p: PC)
    requires Exclusive(s) && s'.pcs == s.pcs + [p] && !Reads(p) && !Writes(p)
    ensures Exclusive(s')
  {
  }

  lemma JoinedNowhere(s: State, s': State, p: PC, f: PC -> bool)
    requires s'.pcs == s.pcs + [p] && !f(p) && Somewhere(s', f)
    ensures Somewhere(s, f)
  {
    var j :| 0 <= j < |s'.pcs| && f(s'.pcs[j]);
    assert f(s.pcs[j]);
  }

  /** A new thread outside every critical section changes nothing that the invariants see. */
  lemma Joined(s: State, s': State, p: PC)
    requires Inv(s) && (p == Idle || p == CLock)
    requires s'.pcs == s.pcs + [p]
    requires s'.failures == s.failures && s'.successes == s.successes && s'.open == s.open && s'.shutdown == s.shutdown
    requires s'.timer == s.timer || (p == CLock && s.timer.Armed?)
    ensures Inv(s')
  {
    JoinedExclusive(s, s', p);
    StillSomewhere(s, s', BetweenAddAndZero);
    StillSomewhere(s, s', WillAct);
    StillSomewhere(s, s', WillReset);
    if Somewhere(s', AboutToClose) { JoinedNowhere(s, s', p, AboutToClose); }
    if p == CLock { assert WillReset(s'.pcs[|s.pcs|]); }
  }

  lemma StepKeepsInv(s: State, a: Action)
    requires Inv(s) && Enabled(s, a)
    ensures Inv(Next(s, a))
  {
    match a
    case Move(i, o) =>
      ExclusiveKept(s, i, o);
      OneCounterKept(s, i, o);
      FailuresAnsweredKept(s, i, o);
      NeverStuckKept(s, i, o);
    case Spawn => Joined(s, Next(s, a), Idle);
    case Fire => Joined(s, Next(s, a), CLock);
    case Shutdown =>
      var s' := Next(s, a);
      forall f: PC -> bool ensures Somewhere(s, f) == Somewhere(s', f) {
        assert s.pcs == s'.pcs;
      }
  }

  lemma {:induction false} RunKeepsInv(trace: seq<State>, actions: seq<Action>, k: nat)
    requires IsRun(trace, actions) && k <= |actions|
    ensures Inv(trace[k])
  {
    if k > 0 {
      RunKeepsInv(trace, actions, k - 1);
      assert StepAt(trace, actions, k - 1);
      StepKeepsInv(trace[k - 1], actions[k - 1]);
    }
  }

  /** Outside recordSuccess, recordFailure and the reset callback. */
  predicate AtRest(p: PC) {
    p.Idle? || p.CheckFlag? || p.CheckUnlock? || p.Writing? || p.CDone?
  }

  ghost predicate Quiescent(s: State) {
    forall j :: 0 <= j < |s.pcs| ==> AtRest(s.pcs[j])
  }

  /**
   In every interleaving, whenever no thread is recording and no callback is under way: a closed
   circuit has fewer failures than the threshold, the two counters are not both nonzero, and before
   Close an open circuit has a running reset timer.
   */
  lemma QuiescentStates(trace: seq<State>, actions: seq<Action>, k: nat)
    requires IsRun(trace, actions) && k <= |actions| && Quiescent(trace[k])
    ensures !trace[k].open ==> trace[k].failures < THRESHOLD
    ensures trace[k].failures == 0 || trace[k].successes == 0
    ensures trace[k].open && !trace[k].shutdown ==> trace[k].timer.Armed?
  {
    RunKeepsInv(trace, actions, k);
  }

  /**
   In every state of every interleaving: a closed circuit at the threshold has a thread that will
   open it or zero the count, both counters nonzero means a thread is between its increment and its
   store, a write-lock holder is alone, and before Close an open circuit is never stuck.
   */
  lemma EveryState(trace: seq<State>, actions: seq<Action>, k: nat)
    requires IsRun(trace, actions) && k <= |actions|
    ensures Exclusive(trace[k])
    ensures trace[k].failures != 0 && trace[k].successes != 0 ==> Somewhere(trace[k], BetweenAddAndZero)
    ensures !trace[k].open && trace[k].failures >= THRESHOLD ==> Somewhere(trace[k], WillAct)
    ensures trace[k].open && !trace[k].shutdown ==> trace[k].timer.Armed? || Somewhere(trace[k], WillReset)
  {
    RunKeepsInv(trace, actions, k);
  }

  // ----- The circuit changes only for cause -----

  /** The position from which step `k` of a run is taken, if it is a thread's step. */
  ghost predicate StepFrom(trace: seq<State>, actions: seq<Action>, k: nat, f: PC -> bool)
    requires IsRun(trace, actions) && k < |actions|
  {
    actions[k].Move? && actions[k].thread < |trace[k].pcs| && f(trace[k].pcs[actions[k].thread])
  }

  /** How many of the first `k` steps were `adds` steps with no `zeroes` step after them. */
  ghost function Unbroken(trace: seq<State>, actions: seq<Action>, k: nat, adds: PC -> bool, zeroes: PC -> bool): nat
    requires IsRun(trace, actions) && k <= |actions|
  {
    if k == 0 || StepFrom(trace, actions, k - 1, zeroes) then 0
    else Unbroken(trace, actions, k - 1, adds, zeroes) + (if StepFrom(trace, actions, k - 1, adds) then 1 else 0)
  }

  lemma FailureStep(s: State, a: Action)
    requires Enabled(s, a)
    ensures Next(s, a).failures <=
              (if a.Move? && ZeroesFailures(s.pcs[a.thread]) then 0
               else s.failures + (if a.Move? && AddsFailure(s.pcs[a.thread]) then 1 else 0))
  {
  }

  lemma SuccessStep(s: State, a: Action)
    requires Enabled(s, a)
    ensures Next(s, a).successes <=
              (if a.Move? && ZeroesSuccesses(s.pcs[a.thread]) then 0
               else s.successes + (if a.Move? && AddsSuccess(s.pcs[a.thread]) then 1 else 0))
  {
  }

  /** The counters never exceed what the history since their last zeroing accounts for. */
  lemma {:induction false} CountersAccounted(trace: seq<State>, actions: seq<Action>, k: nat)
    requires IsRun(trace, actions) && k <= |actions|
    ensures trace[k].failures <= Unbroken(trace, actions, k, AddsFailure, ZeroesFailures)
    ensures trace[k].successes <= Unbroken(trace, actions, k, AddsSuccess, ZeroesSuccesses)
  {
    if k > 0 {
      CountersAccounted(trace, actions, k - 1);
      assert StepAt(trace, actions, k - 1);
      FailureStep(trace[k - 1], actions[k - 1]);
      SuccessStep(trace[k - 1], actions[k - 1]);
    }
  }

  lemma SwitchStep(s: State, a: Action, i: nat)
    requires Enabled(s, a) && i < |Next(s, a).pcs|
    requires Next(s, a).pcs[i].FOpen? || Next(s, a).pcs[i].SClose?
    ensures i < |s.pcs|
    ensures a.Move? && a.thread == i ==>
              if Next(s, a).pcs[i].FOpen? then s.pcs[i].FLoad? && s.failures >= THRESHOLD
              else s.pcs[i].SLoad? && s.successes >= THRESHOLD
    ensures !(a.Move? && a.thread == i) ==> s.pcs[i] == Next(s, a).pcs[i]
  {
    if a.Move? && a.thread != i { Others(s, a.thread, a.outcome); }
  }

  /** A thread about to switch the circuit has loaded a counter at the threshold before. */
  lemma {:induction false} LoadedBefore(trace: seq<State>, actions: seq<Action>, k: nat, i: nat) returns (m: nat)
    requires IsRun(trace, actions) && k <= |actions|
    requires i < |trace[k].pcs| && (trace[k].pcs[i].FOpen? || trace[k].pcs[i].SClose?)
    ensures m < k && actions[m].Move? && actions[m].thread == i && i < |trace[m].pcs|
    ensures trace[k].pcs[i].FOpen? ==> trace[m].pcs[i].FLoad? && trace[m].failures >= THRESHOLD
    ensures trace[k].pcs[i].SClose? ==> trace[m].pcs[i].SLoad? && trace[m].successes >= THRESHOLD
  {
    var a := actions[k - 1];
    assert StepAt(trace, actions, k - 1);
    SwitchStep(trace[k - 1], a, i);
    if a.Move? && a.thread == i {
      m := k - 1;
    } else {
      m := LoadedBefore(trace, actions, k - 1, i);
    }
  }

  /**
   Over every run: the circuit opens only by a thread that loaded the failure count after at least
   `THRESHOLD` recorded failures that no success, opening or reset had wiped out; and it closes only
   by a reset callback or by a thread that loaded the success count after at least `THRESHOLD`
   recorded successes that no failure, closing or reset had wiped out.
   */
  lemma SwitchesForCause(trace: seq<State>, actions: seq<Action>, k: nat)
    requires IsRun(trace, actions) && k < |actions|
    ensures trace[k].open != trace[k + 1].open ==> actions[k].Move? && actions[k].thread < |trace[k].pcs|
    ensures !trace[k].open && trace[k + 1].open ==>
              exists m: nat :: m < k && StepFrom(trace, actions, m, LoadsFailures) && actions[m].thread == actions[k].thread
                               && Unbroken(trace, actions, m, AddsFailure, ZeroesFailures) >= THRESHOLD
    ensures trace[k].open && !trace[k + 1].open && !trace[k].pcs[actions[k].thread].CClose? ==>
              exists m: nat :: m < k && StepFrom(trace, actions, m, LoadsSuccesses) && actions[m].thread == actions[k].thread
                               && Unbroken(trace, actions, m, AddsSuccess, ZeroesSuccesses) >= THRESHOLD
  {
    var a := actions[k];
    assert StepAt(trace, actions, k);
    if trace[k].open != trace[k + 1].open && !trace[k].pcs[a.thread].CClose? {
      var m := LoadedBefore(trace, actions, k, a.thread);
      CountersAccounted(trace, actions, m);
    }
  }

  // ----- One publisher -----

  predicate Callback(p: PC) {
    p.CLock? || p.CClose? || p.CZeroF? || p.CZeroS? || p.CUnlock? || p.CDone?
  }

  /** A callback that has not finished. */
  predicate Live(p: PC) {
    Callback(p) && !p.CDone?
  }

  /** Past the circuit check with nothing decided yet: from seeing it closed to the opening store. */
  predicate InFlight(p: PC) {
    || p == CheckUnlock(false) || p.Writing?
    || p.SAdd? || p.SZero? || p.SRLock? || p.SRFlag? || p == SRUnlock(false)
    || p.FAdd? || p.FZero? || p.FRLock? || p.FRFlag? || p.FRLoad? || p == FRUnlock(true)
    || p.FLock? || p.FFlag? || p.FLoad? || p.FOpen?
  }

  /** The branch of recordSuccess that closes an open circuit. */
  predicate ClosingBySuccess(p: PC) {
    p.SRLoad? || p == SRUnlock(true) || p.SLock? || p.SFlag? || p.SLoad? || p.SClose? || p.SReset? || p.SUnlock?
  }

  /** On its way to close the circuit. */
  predicate CallbackPending(p: PC) {
    p.CLock? || p.CClose?
  }

  ghost predicate Solo(s: State) {
    && |s.pcs| >= 1 && !s.shutdown
    && !Callback(s.pcs[0]) && !ClosingBySuccess(s.pcs[0])
    && (forall i :: 1 <= i < |s.pcs| ==> Callback(s.pcs[i]))
    && (forall i, j :: 0 <= i < j < |s.pcs| ==> !(Live(s.pcs[i]) && Live(s.pcs[j])))
    && (s.timer.Armed? || s.pcs[0].FReset? || s.pcs[0].FArm? || InFlight(s.pcs[0]) ==> !Somewhere(s, Live))
    && (s.pcs[0].FReset? || s.pcs[0].FArm? || InFlight(s.pcs[0]) ==> !s.timer.Armed?)
    && (s.open <==> s.timer.Armed? || Somewhere(s, CallbackPending) || s.pcs[0].FReset? || s.pcs[0].FArm?)
  }

  lemma SoloCallbackMove(s: State, i: nat, o: Outcome)
    requires Enabled(s, Move(i, o)) && Exclusive(s) && Solo(s) && i > 0
    ensures Solo(Do(s, i, o))
  {
    Others(s, i, o);
    var s' := Do(s, i, o);
    assert Live(s.pcs[i]);
    forall j | 0 <= j < |s.pcs| && j != i ensures !Live(s'.pcs[j]) {
      assert !Live(s.pcs[j]);
    }
    assert CallbackPending(s.pcs[i]) ==> Somewhere(s, CallbackPending);
    assert CallbackPending(s'.pcs[i]) ==> Somewhere(s', CallbackPending);
  }

  lemma SomewhereFrame(s: State, s': State, i: nat, f: PC -> bool)
    requires |s.pcs| == |s'.pcs| && i < |s.pcs| && f(s.pcs[i]) == f(s'.pcs[i])
    requires forall j :: 0 <= j < |s.pcs| && j != i ==> s'.pcs[j] == s.pcs[j]
    ensures Somewhere(s, f) == Somewhere(s', f)
  {
    if Somewhere(s, f) {
      var j :| 0 <= j < |s.pcs| && f(s.pcs[j]);
      assert f(s'.pcs[j]);
    }
    if Somewhere(s', f) {
      var j :| 0 <= j < |s'.pcs| && f(s'.pcs[j]);
      assert f(s.pcs[j]);
    }
  }

  /** The publisher's steps neither start nor finish a callback. */
  lemma PublisherLeavesCallbacks(s: State, o: Outcome)
    requires |s.pcs| > 0 && !Callback(s.pcs[0])
    ensures !Callback(Do(s, 0, o).pcs[0])
    ensures Somewhere(Do(s, 0, o), Live) == Somewhere(s, Live)
    ensures Somewhere(Do(s, 0, o), CallbackPending) == Somewhere(s, CallbackPending)
  {
    Others(s, 0, o);
    var s' := Do(s, 0, o);
    assert !Callback(s'.pcs[0]);
    SomewhereFrame(s, s', 0, Live);
    SomewhereFrame(s, s', 0, CallbackPending);
  }

  /** A publisher that reads the flag closed under the read lock has no callback to fear. */
  lemma ClosedMeansNoCallback(s: State)
    requires Solo(s) && Exclusive(s) && s.pcs[0].CheckFlag? && !s.open
    ensures !Somewhere(s, Live)
  {
    assert !Somewhere(s, CallbackPending);
    forall j | 0 <= j < |s.pcs| ensures !Live(s.pcs[j]) {
      assert !CallbackPending(s.pcs[j]);
      assert Writes(s.pcs[j]) && j != 0 ==> !Reads(s.pcs[0]);
    }
  }

  lemma PendingIsLive(s: State)
    ensures Somewhere(s, CallbackPending) ==> Somewhere(s, Live)
  {
    if Somewhere(s, CallbackPending) {
      var j :| 0 <= j < |s.pcs| && CallbackPending(s.pcs[j]);
      assert Live(s.pcs[j]);
    }
  }

  lemma SoloPublisherMove(s: State, o: Outcome)
    requires |s.pcs| > 0 && Enabled(s, Move(0, o)) && Exclusive(s) && Solo(s)
    ensures Solo(Do(s, 0, o))
  {
    Others(s, 0, o);
    PublisherLeavesCallbacks(s, o);
    PendingIsLive(s);
    if s.pcs[0].CheckFlag? && !s.open { ClosedMeansNoCallback(s); }
    var s' := Do(s, 0, o);
    assert InFlight(s'.pcs[0]) ==> InFlight(s.pcs[0]) || s.pcs[0].CheckFlag?;
    assert !ClosingBySuccess(s'.pcs[0]);
  }

  lemma SoloFire(s: State)
    requires Solo(s) && s.timer.Armed?
    ensures Solo(Next(s, Fire))
  {
    var s' := Next(s, Fire);
    assert forall j :: 0 <= j < |s.pcs| ==> s'.pcs[j] == s.pcs[j] && !Live(s.pcs[j]);
    assert CallbackPending(s'.pcs[|s.pcs|]);
  }

  lemma SoloStep(s: State, a: Action, s': State)
    requires Solo(s) && Exclusive(s) && Enabled(s, a) && (a.Move? || a.Fire?) && s' == Next(s, a)
    ensures Solo(s')
  {
    if a.Fire? {
      SoloFire(s);
    } else if a.thread == 0 {
      SoloPublisherMove(s, a.outcome);
    } else {
      SoloCallbackMove(s, a.thread, a.outcome);
    }
  }

  lemma SoloStart(s: State)
    requires s == State(0, 0, false, NoTimer, false, [Idle])
    ensures Solo(s)
  {
  }

  lemma RunExclusive(trace: seq<State>, actions: seq<Action>, k: nat)
    requires IsRun(trace, actions) && k <= |actions|
    ensures Exclusive(trace[k])
  {
    RunKeepsInv(trace, actions, k);
  }

  /**
   With a single publisher and no Close, in every state: the circuit is open exactly while its timer
   runs, its callback is on its way, or the opener is about to arm the timer; and the branch that
   closes the circuit on successes is never entered.
   */
  lemma {:induction false} SinglePublisher(trace: seq<State>, actions: seq<Action>, k: nat)
    requires IsRun(trace, actions) && 1 <= k <= |actions|
    requires actions[0] == Spawn
    requires forall m :: 1 <= m < |actions| ==> actions[m].Move? || actions[m].Fire?
    ensures Solo(trace[k])
  {
    if k == 1 {
      SoloFirst(trace, actions);
    } else {
      SinglePublisher(trace, actions, k - 1);
      RunExclusive(trace, actions, k - 1);
      assert StepAt(trace, actions, k - 1);
      SoloLater(trace, actions, k);
    }
  }

  lemma SoloFirst(trace: seq<State>, actions: seq<Action>)
    requires IsRun(trace, actions) && |actions| >= 1 && actions[0] == Spawn
    ensures Solo(trace[1])
  {
    assert StepAt(trace, actions, 0);
    assert trace[1].pcs == [Idle];
    SoloStart(trace[1]);
  }

  lemma SoloLater(trace: seq<State>, actions: seq<Action>, k: nat)
    requires |trace| == |actions| + 1 && 1 <= k <= |actions| && StepAt(trace, actions, k - 1)
    requires Solo(trace[k - 1]) && Exclusive(trace[k - 1]) && (actions[k - 1].Move? || actions[k - 1].Fire?)
    ensures Solo(trace[k])
  {
    SoloStep(trace[k - 1], actions[k - 1], trace[k]);
  }
}
