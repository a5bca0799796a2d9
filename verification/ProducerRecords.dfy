/**
 What the producer's circuit does with recorded outcomes. Over every interleaving the counters are
 exact; and publishers that take turns open it with the fifth failure, close it with the fifth
 success, are refused while it is open, and find it closed again after the timer's callback.
 */
module ProducerRecords {
  import opened ProducerBreaker

  const TWO_31: int := 0x8000_0000

  // ----- The counters are exact in every interleaving -----

  /** How many of the first `k` steps were `adds` steps. */
  ghost function Recorded(trace: seq<State>, actions: seq<Action>, k: nat, adds: PC -> bool): nat
    requires IsRun(trace, actions) && k <= |actions|
  {
    if k == 0 then 0
    else Recorded(trace, actions, k - 1, adds) + (if StepFrom(trace, actions, k - 1, adds) then 1 else 0)
  }

  lemma {:induction false} UnbrokenIsRecorded(trace: seq<State>, actions: seq<Action>, k: nat, adds: PC -> bool, zeroes: PC -> bool)
    requires IsRun(trace, actions) && k <= |actions|
    ensures Unbroken(trace, actions, k, adds, zeroes) <= Recorded(trace, actions, k, adds)
  {
    if k > 0 { UnbrokenIsRecorded(trace, actions, k - 1, adds, zeroes); }
  }

  /**
   While fewer than 2^31 failures and fewer than 2^31 successes have been recorded, each counter is
   exactly the number of its outcomes recorded since it was last zeroed.
   */
  lemma {:induction false} CountersExact(trace: seq<State>, actions: seq<Action>, k: nat)
    requires IsRun(trace, actions) && k <= |actions|
    requires Recorded(trace, actions, k, AddsFailure) < TWO_31 && Recorded(trace, actions, k, AddsSuccess) < TWO_31
    ensures trace[k].failures == Unbroken(trace, actions, k, AddsFailure, ZeroesFailures)
    ensures trace[k].successes == Unbroken(trace, actions, k, AddsSuccess, ZeroesSuccesses)
  {
    if k > 0 {
      CountersExact(trace, actions, k - 1);
      UnbrokenIsRecorded(trace, actions, k - 1, AddsFailure, ZeroesFailures);
      UnbrokenIsRecorded(trace, actions, k - 1, AddsSuccess, ZeroesSuccesses);
      assert StepAt(trace, actions, k - 1);
      CounterExactStep(trace[k - 1], actions[k - 1]);
      BelowLimit(trace, actions, k, AddsFailure, ZeroesFailures);
      BelowLimit(trace, actions, k, AddsSuccess, ZeroesSuccesses);
    }
  }

  lemma CounterExactStep(s: State, a: Action)
    requires Enabled(s, a) && 0 <= s.failures < TWO_31 && 0 <= s.successes < TWO_31
    ensures a.Move? && ZeroesFailures(s.pcs[a.thread]) ==> Next(s, a).failures == 0
    ensures a.Move? && AddsFailure(s.pcs[a.thread]) && s.failures < TWO_31 - 1 ==> Next(s, a).failures == s.failures + 1
    ensures !(a.Move? && (ZeroesFailures(s.pcs[a.thread]) || AddsFailure(s.pcs[a.thread]))) ==> Next(s, a).failures == s.failures
    ensures a.Move? && ZeroesSuccesses(s.pcs[a.thread]) ==> Next(s, a).successes == 0
    ensures a.Move? && AddsSuccess(s.pcs[a.thread]) && s.successes < TWO_31 - 1 ==> Next(s, a).successes == s.successes + 1
    ensures !(a.Move? && (ZeroesSuccesses(s.pcs[a.thread]) || AddsSuccess(s.pcs[a.thread]))) ==>
              Next(s, a).successes == s.successes
  {
  }

  /** A counter about to be incremented is below the largest 32-bit value. */
  lemma BelowLimit(trace: seq<State>, actions: seq<Action>, k: nat, adds: PC -> bool, zeroes: PC -> bool)
    requires IsRun(trace, actions) && 1 <= k <= |actions| && Recorded(trace, actions, k, adds) < TWO_31
    ensures StepFrom(trace, actions, k - 1, adds) ==> Unbroken(trace, actions, k - 1, adds, zeroes) < TWO_31 - 1
  {
    UnbrokenIsRecorded(trace, actions, k - 1, adds, zeroes);
  }

  /** So whenever no thread is recording, a circuit with five failures since the last success, opening or reset is open. */
  lemma FailuresOpen(trace: seq<State>, actions: seq<Action>, k: nat)
    requires IsRun(trace, actions) && k <= |actions| && Quiescent(trace[k])
    requires Recorded(trace, actions, k, AddsFailure) < TWO_31 && Recorded(trace, actions, k, AddsSuccess) < TWO_31
    requires Unbroken(trace, actions, k, AddsFailure, ZeroesFailures) >= 5
    ensures trace[k].open
  {
    CountersExact(trace, actions, k);
    QuiescentStates(trace, actions, k);
  }

  /** In every interleaving a thread that writes has seen the circuit closed. */
  lemma {:induction false} WritersSawClosed(trace: seq<State>, actions: seq<Action>, k: nat, i: nat) returns (m: nat)
    requires IsRun(trace, actions) && k <= |actions| && i < |trace[k].pcs|
    requires trace[k].pcs[i].Writing? || trace[k].pcs[i] == CheckUnlock(false)
    ensures m < k && actions[m].Move? && actions[m].thread == i
    ensures i < |trace[m].pcs| && trace[m].pcs[i].CheckFlag? && !trace[m].open
  {
    var a := actions[k - 1];
    assert StepAt(trace, actions, k - 1);
    CheckStep(trace[k - 1], a, i);
    if a.Move? && a.thread == i && trace[k - 1].pcs[i].CheckFlag? {
      m := k - 1;
    } else {
      m := WritersSawClosed(trace, actions, k - 1, i);
    }
  }

  lemma CheckStep(s: State, a: Action, i: nat)
    requires Enabled(s, a) && i < |Next(s, a).pcs|
    requires Next(s, a).pcs[i].Writing? || Next(s, a).pcs[i] == CheckUnlock(false)
    ensures i < |s.pcs|
    ensures a.Move? && a.thread == i && s.pcs[i].CheckFlag? ==> !s.open
    ensures !(a.Move? && a.thread == i && s.pcs[i].CheckFlag?) ==> s.pcs[i].Writing? || s.pcs[i] == CheckUnlock(false)
  {
    if a.Move? && a.thread != i { Others(s, a.thread, a.outcome); }
  }

  // ----- One thread on its own -----

  /** What a thread that nobody disturbs sees: its position and the shared values. */
  datatype View = View(pc: PC, failures: int, successes: int, open: bool, timer: Timer)

  /** One move: where to from what it reads, and what it writes. */
  function Act(v: View, o: Outcome): View {
    var s := State(v.failures, v.successes, v.open, v.timer, false, []);
    var w := Write(s, v.pc);
    View(Goto(s, v.pc, o), w.failures, w.successes, w.open, w.timer)
  }

  ghost predicate ActAt(path: seq<View>, o: Outcome, k: nat)
    requires k + 1 < |path|
  {
    !path[k].pc.CDone? && path[k + 1] == Act(path[k], o)
  }

  /** Moves of the thread lead from `v` along the path to `v'`. */
  ghost predicate Path(v: View, o: Outcome, path: seq<View>, v': View) {
    && path != [] && path[0] == v && path[|path| - 1] == v'
    && forall k: nat :: k + 1 < |path| ==> ActAt(path, o, k)
  }

  /** The thread moves from `v` to `next`. */
  ghost predicate To(v: View, o: Outcome, next: View) {
    !v.pc.CDone? && next == Act(v, o)
  }

  lemma Here(v: View, o: Outcome) returns (path: seq<View>)
    ensures Path(v, o, path, v)
  {
    path := [v];
  }

  /** One move more in front. */
  lemma Before(v: View, next: View, o: Outcome, path: seq<View>, v': View) returns (longer: seq<View>)
    requires To(v, o, next) && Path(next, o, path, v')
    ensures Path(v, o, longer, v')
  {
    longer := [v] + path;
    forall k: nat | k + 1 < |longer| ensures ActAt(longer, o, k) {
      if k > 0 { assert ActAt(path, o, k - 1); }
    }
  }

  /** Two and three moves in front. */
  lemma Before2(a: View, b: View, c: View, o: Outcome, path: seq<View>, v': View) returns (longer: seq<View>)
    requires To(a, o, b) && To(b, o, c) && Path(c, o, path, v')
    ensures Path(a, o, longer, v')
  {
    longer := Before(b, c, o, path, v');
    longer := Before(a, b, o, longer, v');
  }

  lemma Before3(a: View, b: View, c: View, d: View, o: Outcome, path: seq<View>, v': View) returns (longer: seq<View>)
    requires To(a, o, b) && To(b, o, c) && To(c, o, d) && Path(d, o, path, v')
    ensures Path(a, o, longer, v')
  {
    longer := Before2(b, c, d, o, path, v');
    longer := Before(a, b, o, longer, v');
  }

  /** The end of recordFailure that finds nothing to do. */
  lemma FailureIgnored(f: int, open: bool, timer: Timer, o: Outcome) returns (path: seq<View>)
    requires open || f < 5
    ensures Path(View(FRLock, f, 0, open, timer), o, path, View(Idle, f, 0, open, timer))
  {
    var end, flag := View(Idle, f, 0, open, timer), View(FRFlag, f, 0, open, timer);
    if open { path := FailureWhileOpen(f, timer, o); } else { path := FailureBelow(f, timer, o); }
    path := Before(View(FRLock, f, 0, open, timer), flag, o, path, end);
  }

  lemma FailureWhileOpen(f: int, timer: Timer, o: Outcome) returns (path: seq<View>)
    ensures Path(View(FRFlag, f, 0, true, timer), o, path, View(Idle, f, 0, true, timer))
  {
    var end, unlock := View(Idle, f, 0, true, timer), View(FRUnlock(false), f, 0, true, timer);
    path := Here(end, o);
    path := Before2(View(FRFlag, f, 0, true, timer), unlock, end, o, path, end);
  }

  lemma FailureBelow(f: int, timer: Timer, o: Outcome) returns (path: seq<View>)
    requires f < 5
    ensures Path(View(FRFlag, f, 0, false, timer), o, path, View(Idle, f, 0, false, timer))
  {
    var end, unlock := View(Idle, f, 0, false, timer), View(FRUnlock(false), f, 0, false, timer);
    var load := View(FRLoad, f, 0, false, timer);
    path := Here(end, o);
    path := Before3(View(FRFlag, f, 0, false, timer), load, unlock, end, o, path, end);
  }

  /** The part of recordFailure under the write lock, at the threshold. */
  lemma FailureArms(timer: Timer, o: Outcome) returns (path: seq<View>)
    ensures Path(View(FArm, 0, 0, true, timer), o, path, View(Idle, 0, 0, true, Armed))
  {
    var end, unlock := View(Idle, 0, 0, true, Armed), View(FUnlock, 0, 0, true, Armed);
    path := Here(end, o);
    path := Before2(View(FArm, 0, 0, true, timer), unlock, end, o, path, end);
  }

  lemma FailureOpens(f: int, timer: Timer, o: Outcome, rest: seq<View>, end: View) returns (path: seq<View>)
    requires Path(View(FArm, 0, 0, true, timer), o, rest, end)
    ensures Path(View(FOpen, f, 0, false, timer), o, path, end)
  {
    var reset := View(FReset, f, 0, true, timer);
    path := Before2(View(FOpen, f, 0, false, timer), reset, View(FArm, 0, 0, true, timer), o, rest, end);
  }

  lemma FailureRechecked(f: int, timer: Timer, o: Outcome, rest: seq<View>, end: View) returns (path: seq<View>)
    requires f >= 5 && Path(View(FOpen, f, 0, false, timer), o, rest, end)
    ensures Path(View(FLock, f, 0, false, timer), o, path, end)
  {
    var flag, load := View(FFlag, f, 0, false, timer), View(FLoad, f, 0, false, timer);
    path := Before3(View(FLock, f, 0, false, timer), flag, load, View(FOpen, f, 0, false, timer), o, rest, end);
  }

  lemma FailureUnlocks(f: int, timer: Timer, o: Outcome, rest: seq<View>, end: View) returns (path: seq<View>)
    requires f >= 5 && Path(View(FLock, f, 0, false, timer), o, rest, end)
    ensures Path(View(FRLoad, f, 0, false, timer), o, path, end)
  {
    var unlock := View(FRUnlock(true), f, 0, false, timer);
    path := Before2(View(FRLoad, f, 0, false, timer), unlock, View(FLock, f, 0, false, timer), o, rest, end);
  }

  lemma FailureReachesLock(f: int, timer: Timer, o: Outcome, rest: seq<View>, end: View) returns (path: seq<View>)
    requires f >= 5 && Path(View(FRLoad, f, 0, false, timer), o, rest, end)
    ensures Path(View(FRLock, f, 0, false, timer), o, path, end)
  {
    var flag := View(FRFlag, f, 0, false, timer);
    path := Before2(View(FRLock, f, 0, false, timer), flag, View(FRLoad, f, 0, false, timer), o, rest, end);
  }

  /** From the read lock on, at the threshold. */
  lemma FailureActs(f: int, timer: Timer, o: Outcome) returns (path: seq<View>)
    requires f >= 5
    ensures Path(View(FRLock, f, 0, false, timer), o, path, View(Idle, 0, 0, true, Armed))
  {
    var end := View(Idle, 0, 0, true, Armed);
    path := FailureArms(timer, o);
    path := FailureOpens(f, timer, o, path, end);
    path := FailureRechecked(f, timer, o, path, end);
    path := FailureUnlocks(f, timer, o, path, end);
    path := FailureReachesLock(f, timer, o, path, end);
  }

  /**
   A publisher whose writes have all failed records one failure and forgets the successes; the fifth
   in a row opens a closed circuit, arms the timer and starts the count again.
   */
  lemma FailureRecorded(v: View) returns (path: seq<View>, v': View)
    requires v.pc.Writing? && 0 <= v.failures < TWO_31 - 1
    ensures Path(v, Failed, path, v') && v'.pc.Idle? && v'.successes == 0
    ensures v.open || v.failures < 4 ==> v'.failures == v.failures + 1 && v'.open == v.open && v'.timer == v.timer
    ensures !v.open && v.failures >= 4 ==> v'.failures == 0 && v'.open && v'.timer.Armed?
  {
    var f, u, open, timer := v.failures, v.successes, v.open, v.timer;
    if !open && f + 1 >= 5 {
      path := FailureActs(f + 1, timer, Failed);
      v' := View(Idle, 0, 0, true, Armed);
    } else {
      path := FailureIgnored(f + 1, open, timer, Failed);
      v' := View(Idle, f + 1, 0, open, timer);
    }
    path := FailureCounted(v, path, v');
  }

  lemma FailureCounted(v: View, rest: seq<View>, end: View) returns (path: seq<View>)
    requires v.pc.Writing? && 0 <= v.failures < TWO_31 - 1
    requires Path(View(FRLock, v.failures + 1, 0, v.open, v.timer), Failed, rest, end)
    ensures Path(v, Failed, path, end)
  {
    var add, zero := v.(pc := FAdd), v.(pc := FZero, failures := v.failures + 1);
    path := Before3(v, add, zero, View(FRLock, v.failures + 1, 0, v.open, v.timer), Failed, rest, end);
  }

  lemma SuccessIgnored(u: int, open: bool, timer: Timer, o: Outcome) returns (path: seq<View>)
    requires !open || u < 5
    ensures Path(View(SRLock, 0, u, open, timer), o, path, View(Idle, 0, u, open, timer))
  {
    var end, flag := View(Idle, 0, u, open, timer), View(SRFlag, 0, u, open, timer);
    if open { path := SuccessBelow(u, timer, o); } else { path := SuccessWhileClosed(u, timer, o); }
    path := Before(View(SRLock, 0, u, open, timer), flag, o, path, end);
  }

  lemma SuccessWhileClosed(u: int, timer: Timer, o: Outcome) returns (path: seq<View>)
    ensures Path(View(SRFlag, 0, u, false, timer), o, path, View(Idle, 0, u, false, timer))
  {
    var end, unlock := View(Idle, 0, u, false, timer), View(SRUnlock(false), 0, u, false, timer);
    path := Here(end, o);
    path := Before2(View(SRFlag, 0, u, false, timer), unlock, end, o, path, end);
  }

  lemma SuccessBelow(u: int, timer: Timer, o: Outcome) returns (path: seq<View>)
    requires u < 5
    ensures Path(View(SRFlag, 0, u, true, timer), o, path, View(Idle, 0, u, true, timer))
  {
    var end, unlock := View(Idle, 0, u, true, timer), View(SRUnlock(false), 0, u, true, timer);
    var load := View(SRLoad, 0, u, true, timer);
    path := Here(end, o);
    path := Before3(View(SRFlag, 0, u, true, timer), load, unlock, end, o, path, end);
  }

  lemma SuccessCloses(u: int, timer: Timer, o: Outcome) returns (path: seq<View>)
    ensures Path(View(SClose, 0, u, true, timer), o, path, View(Idle, 0, 0, false, timer))
  {
    var end, unlock := View(Idle, 0, 0, false, timer), View(SUnlock, 0, 0, false, timer);
    var reset := View(SReset, 0, u, false, timer);
    path := Here(end, o);
    path := Before3(View(SClose, 0, u, true, timer), reset, unlock, end, o, path, end);
  }

  lemma SuccessRechecked(u: int, timer: Timer, o: Outcome, rest: seq<View>, end: View) returns (path: seq<View>)
    requires u >= 5 && Path(View(SClose, 0, u, true, timer), o, rest, end)
    ensures Path(View(SLock, 0, u, true, timer), o, path, end)
  {
    var flag, load := View(SFlag, 0, u, true, timer), View(SLoad, 0, u, true, timer);
    path := Before3(View(SLock, 0, u, true, timer), flag, load, View(SClose, 0, u, true, timer), o, rest, end);
  }

  lemma SuccessUnlocks(u: int, timer: Timer, o: Outcome, rest: seq<View>, end: View) returns (path: seq<View>)
    requires u >= 5 && Path(View(SLock, 0, u, true, timer), o, rest, end)
    ensures Path(View(SRLoad, 0, u, true, timer), o, path, end)
  {
    var unlock := View(SRUnlock(true), 0, u, true, timer);
    path := Before2(View(SRLoad, 0, u, true, timer), unlock, View(SLock, 0, u, true, timer), o, rest, end);
  }

  lemma SuccessReachesLock(u: int, timer: Timer, o: Outcome, rest: seq<View>, end: View) returns (path: seq<View>)
    requires u >= 5 && Path(View(SRLoad, 0, u, true, timer), o, rest, end)
    ensures Path(View(SRLock, 0, u, true, timer), o, path, end)
  {
    var flag := View(SRFlag, 0, u, true, timer);
    path := Before2(View(SRLock, 0, u, true, timer), flag, View(SRLoad, 0, u, true, timer), o, rest, end);
  }

  /**
   A publisher whose write has succeeded records one success and forgets the failures; the fifth in a
   row closes an open circuit and starts the count again, and leaves the timer running.
   */
  lemma SuccessRecorded(v: View) returns (path: seq<View>, v': View)
    requires v.pc.Writing? && 0 <= v.successes < TWO_31 - 1
    ensures Path(v, Succeeded, path, v') && v'.pc.Idle? && v'.failures == 0 && v'.timer == v.timer
    ensures !v.open || v.successes < 4 ==> v'.successes == v.successes + 1 && v'.open == v.open
    ensures v.open && v.successes >= 4 ==> v'.successes == 0 && !v'.open
  {
    var f, u, open, timer := v.failures, v.successes, v.open, v.timer;
    if open && u + 1 >= 5 {
      path := SuccessCloses(u + 1, timer, Succeeded);
      v' := View(Idle, 0, 0, false, timer);
      path := SuccessRechecked(u + 1, timer, Succeeded, path, v');
      path := SuccessUnlocks(u + 1, timer, Succeeded, path, v');
      path := SuccessReachesLock(u + 1, timer, Succeeded, path, v');
    } else {
      path := SuccessIgnored(u + 1, open, timer, Succeeded);
      v' := View(Idle, 0, u + 1, open, timer);
    }
    path := SuccessCounted(v, path, v');
  }

  lemma SuccessCounted(v: View, rest: seq<View>, end: View) returns (path: seq<View>)
    requires v.pc.Writing? && 0 <= v.successes < TWO_31 - 1
    requires Path(View(SRLock, 0, v.successes + 1, v.open, v.timer), Succeeded, rest, end)
    ensures Path(v, Succeeded, path, end)
  {
    var add, zero := v.(pc := SAdd), v.(pc := SZero, successes := v.successes + 1);
    path := Before3(v, add, zero, View(SRLock, 0, v.successes + 1, v.open, v.timer), Succeeded, rest, end);
  }

  /** A publish abandoned in its wait leaves no record. */
  lemma AbandonedUnrecorded(v: View)
    requires v.pc.Writing?
    ensures Act(v, Abandoned) == v.(pc := Idle)
  {
  }

  /** The circuit check: three moves to the writes if the circuit is closed, and back to the start if it is open. */
  lemma Checked(v: View, o: Outcome)
    requires v.pc.Idle?
    ensures Act(v, o) == v.(pc := CheckFlag)
    ensures Act(Act(v, o), o) == v.(pc := CheckUnlock(v.open))
    ensures Act(Act(Act(v, o), o), o) == v.(pc := if v.open then Idle else Writing)
  {
  }

  /** A whole publish on a closed circuit, from the check to the record. */
  lemma FailingPublish(v: View) returns (path: seq<View>, v': View)
    requires v.pc.Idle? && !v.open && 0 <= v.failures < TWO_31 - 1
    ensures Path(v, Failed, path, v') && v'.pc.Idle? && v'.successes == 0
    ensures v.failures < 4 ==> v'.failures == v.failures + 1 && !v'.open && v'.timer == v.timer
    ensures v.failures >= 4 ==> v'.failures == 0 && v'.open && v'.timer.Armed?
  {
    Checked(v, Failed);
    path, v' := FailureRecorded(v.(pc := Writing));
    path := Before3(v, v.(pc := CheckFlag), v.(pc := CheckUnlock(false)), v.(pc := Writing), Failed, path, v');
  }

  /** The timer's callback closes the circuit and forgets both counts. */
  lemma CallbackMoves(v: View) returns (path: seq<View>)
    requires v.pc.CLock?
    ensures Path(v, Abandoned, path, View(CDone, 0, 0, false, v.timer))
  {
    var end, zero := View(CDone, 0, 0, false, v.timer), View(CZeroF, v.failures, v.successes, false, v.timer);
    path := CallbackZeroes(v.failures, v.successes, v.timer);
    path := Before2(v, v.(pc := CClose), zero, Abandoned, path, end);
  }

  lemma CallbackZeroes(f: int, u: int, timer: Timer) returns (path: seq<View>)
    ensures Path(View(CZeroF, f, u, false, timer), Abandoned, path, View(CDone, 0, 0, false, timer))
  {
    var end, unlock := View(CDone, 0, 0, false, timer), View(CUnlock, 0, 0, false, timer);
    path := Here(end, Abandoned);
    path := Before3(View(CZeroF, f, u, false, timer), View(CZeroS, 0, u, false, timer), unlock, end, Abandoned, path, end);
  }

  // ----- Publishers that take turns -----

  function ViewOf(s: State, i: nat): View
    requires i < |s.pcs|
  {
    View(s.pcs[i], s.failures, s.successes, s.open, s.timer)
  }

  /** `s` as changed by thread `i` alone. */
  function Seen(s: State, i: nat, v: View): State
    requires i < |s.pcs|
  {
    State(v.failures, v.successes, v.open, v.timer, s.shutdown, s.pcs[i := v.pc])
  }

  /** Nobody but thread `i` holds the lock. */
  ghost predicate OthersFree(s: State, i: nat) {
    forall j :: 0 <= j < |s.pcs| && j != i ==> !Reads(s.pcs[j]) && !Writes(s.pcs[j])
  }

  /** `n` moves of thread `i`, enabled in turn and its write ending in `o`, lead from `s` to `s'`. */
  ghost predicate Goes(s: State, i: nat, o: Outcome, n: nat, s': State)
    decreases n
  {
    if n == 0 then s == s'
    else i < |s.pcs| && Enabled(s, Move(i, o)) && Goes(Next(s, Move(i, o)), i, o, n - 1, s')
  }

  lemma OneMove(s: State, i: nat, o: Outcome)
    requires i < |s.pcs| && OthersFree(s, i) && !s.pcs[i].CDone?
    ensures Enabled(s, Move(i, o))
    ensures Next(s, Move(i, o)) == Seen(s, i, Act(ViewOf(s, i), o))
    ensures OthersFree(Next(s, Move(i, o)), i) && ViewOf(Next(s, Move(i, o)), i) == Act(ViewOf(s, i), o)
  {
    Others(s, i, o);
  }

  /** Undisturbed, a thread does among others what it does on its own. */
  lemma {:induction false} Alone(s: State, i: nat, o: Outcome, path: seq<View>, v': View)
    requires i < |s.pcs| && OthersFree(s, i) && Path(ViewOf(s, i), o, path, v')
    ensures Goes(s, i, o, |path| - 1, Seen(s, i, v'))
    decreases |path|
  {
    if |path| == 1 {
      assert s.pcs[i := s.pcs[i]] == s.pcs;
    } else {
      Shorter(ViewOf(s, i), o, path, v');
      OneMove(s, i, o);
      Alone(Next(s, Move(i, o)), i, o, path[1..], v');
      SeenAgain(s, i, Act(ViewOf(s, i), o), v');
    }
  }

  lemma SeenAgain(s: State, i: nat, v: View, v': View)
    requires i < |s.pcs|
    ensures Seen(Seen(s, i, v), i, v') == Seen(s, i, v')
  {
    assert s.pcs[i := v.pc][i := v'.pc] == s.pcs[i := v'.pc];
  }

  lemma Shorter(v: View, o: Outcome, path: seq<View>, v': View)
    requires |path| > 1 && Path(v, o, path, v')
    ensures !v.pc.CDone? && Path(Act(v, o), o, path[1..], v')
  {
    assert ActAt(path, o, 0);
    forall k: nat | k + 1 < |path[1..]| ensures ActAt(path[1..], o, k) {
      assert ActAt(path, o, k + 1);
    }
  }

  /** The publishers take turns, each with one publish whose writes all fail. */
  ghost predicate FailInTurn(s: State, threads: seq<nat>, s': State)
    decreases threads
  {
    if threads == [] then s == s'
    else exists n, mid :: Goes(s, threads[0], Failed, n, mid) && FailInTurn(mid, threads[1..], s')
  }

  /** Publishers at their start, and nobody else in a critical section. */
  ghost predicate Waiting(s: State, threads: seq<nat>) {
    && (forall i :: 0 <= i < |threads| ==> threads[i] < |s.pcs| && s.pcs[threads[i]].Idle?)
    && (forall j :: 0 <= j < |s.pcs| ==> !Reads(s.pcs[j]) && !Writes(s.pcs[j]))
  }

  /** One failing publish in turn, as a step of the whole producer. */
  lemma FailsOnce(s: State, i: nat) returns (s': State)
    requires i < |s.pcs| && Waiting(s, [i]) && !s.open && 0 <= s.failures < TWO_31 - 1
    ensures exists n: nat :: Goes(s, i, Failed, n, s')
    ensures s'.pcs == s.pcs && s'.shutdown == s.shutdown
    ensures s.failures < 4 ==> s'.failures == s.failures + 1 && !s'.open && s'.timer == s.timer
    ensures s.failures >= 4 ==> s'.failures == 0 && s'.open && s'.timer.Armed?
  {
    assert [i][0] == i;
    var path, v' := FailingPublish(ViewOf(s, i));
    Alone(s, i, Failed, path, v');
    s' := Seen(s, i, v');
  }

  /**
   Failures recorded one after the other on a closed circuit, by any publishers and with no success in
   between, open it with the fifth and not before, and opening arms the timer.
   */
  lemma {:induction false} FifthFailureOpens(s: State, threads: seq<nat>) returns (s': State)
    requires Waiting(s, threads) && !s.open && 0 <= s.failures && s.failures + |threads| <= 5 && s.failures < 5
    ensures FailInTurn(s, threads, s') && s'.pcs == s.pcs
    ensures s.failures + |threads| < 5 ==> !s'.open && s'.failures == s.failures + |threads| && s'.timer == s.timer
    ensures s.failures + |threads| == 5 ==> s'.open && s'.timer.Armed? && s'.failures == 0
    decreases threads
  {
    if threads == [] {
      s' := s;
    } else {
      assert Waiting(s, [threads[0]]);
      var mid := FailsOnce(s, threads[0]);
      if |threads| == 1 {
        s' := mid;
        assert FailInTurn(mid, threads[1..], mid);
      } else {
        s' := FifthFailureOpens(mid, threads[1..]);
      }
    }
  }

  /** And then every publisher is refused: it is back at its start after the check, and nothing has changed. */
  lemma RefusedWhileOpen(s: State, threads: seq<nat>, i: nat, o: Outcome) returns (s': State)
    requires Waiting(s, threads) && !s.open && s.failures >= 0 && s.failures + |threads| == 5 && threads != []
    requires i < |s.pcs| && s.pcs[i].Idle?
    ensures FailInTurn(s, threads, s') && s'.open && s'.pcs == s.pcs && Refused(s', i, o)
  {
    s' := FifthFailureOpens(s, threads);
    OpenRefuses(s', i, o);
  }

  /** The thread's next three moves are the check, and end where it started. */
  ghost predicate Refused(s: State, i: nat, o: Outcome) {
    && i < |s.pcs| && Goes(s, i, o, 3, s) && Enabled(s, Move(i, o))
    && var s1 := Next(s, Move(i, o));
       && i < |s1.pcs| && s1.pcs[i].CheckFlag? && Enabled(s1, Move(i, o))
       && i < |Next(s1, Move(i, o)).pcs| && Next(s1, Move(i, o)).pcs[i] == CheckUnlock(true)
  }

  lemma OpenRefuses(s: State, i: nat, o: Outcome)
    requires i < |s.pcs| && s.pcs[i].Idle? && s.open && OthersFree(s, i)
    ensures Refused(s, i, o)
  {
    var v := ViewOf(s, i);
    Checked(v, o);
    OneMove(s, i, o);
    var s1 := Next(s, Move(i, o));
    OneMove(s1, i, o);
    var s2 := Next(s1, Move(i, o));
    OneMove(s2, i, o);
    assert Next(s2, Move(i, o)).pcs == s.pcs;
    assert Goes(s2, i, o, 1, s) by { assert Goes(Next(s2, Move(i, o)), i, o, 0, s); }
    assert Goes(s1, i, o, 2, s);
  }

  /** When the timer fires, its callback closes the circuit and forgets both counts. */
  lemma CallbackCloses(s: State) returns (n: nat)
    requires s.timer.Armed? && forall j :: 0 <= j < |s.pcs| ==> !Reads(s.pcs[j]) && !Writes(s.pcs[j])
    ensures !Next(s, Fire).timer.Armed?
    ensures Goes(Next(s, Fire), |s.pcs|, Abandoned, n, State(0, 0, false, Next(s, Fire).timer, s.shutdown, s.pcs + [CDone]))
  {
    var fired, i := Next(s, Fire), |s.pcs|;
    var path := CallbackMoves(ViewOf(fired, i));
    Alone(fired, i, Abandoned, path, View(CDone, 0, 0, false, fired.timer));
    n := |path| - 1;
    assert fired.pcs[i := CDone] == s.pcs + [CDone];
  }

  /** Close stops the timer. */
  lemma CloseStopsTimer(s: State)
    requires Enabled(s, Shutdown)
    ensures Next(s, Shutdown).shutdown && !Enabled(Next(s, Shutdown), Fire)
  {
  }
}
