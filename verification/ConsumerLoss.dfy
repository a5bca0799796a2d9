/**
 Exactly when the broker can be told to pass over a message that nobody received. The record is not
 yet handled; the question is whether some continuation, in which its own send is not cancelled,
 commits an offset beyond it while it is still unhandled.
 */
module ConsumerLoss {
  import opened Prelude
  import opened Consumer

  /** The commit has passed a record that is not handled. */
  ghost predicate Overtaken(log: Log, s: State, p: int, o: nat) {
    p in s.committed && s.committed[p] > o && !Handled(log, s, p, o)
  }

  /** This step cancels the send of this very record. */
  predicate CancelsSend(s: State, step: Step, p: int, o: nat) {
    step.GiveUp? && s.pc == Sending(p, o)
  }

  ghost predicate Spares(log: Log, s: State, steps: seq<Step>, p: int, o: nat)
    decreases steps
  {
    steps == [] || (!CancelsSend(s, steps[0], p, o) && Spares(log, Next(log, s, steps[0]), steps[1..], p, o))
  }

  ghost predicate CanBeLost(log: Log, s: State, p: int, o: nat) {
    exists steps, s' :: Leads(log, s, steps, s') && Spares(log, s, steps, p, o) && Overtaken(log, s', p, o)
  }

  ghost predicate RecordFrom(log: Log, p: int, n: nat) {
    exists m: nat :: m >= n && log(p, m).Some?
  }

  function Max(a: nat, b: nat): nat {
    if a >= b then a else b
  }

  /** A commit beyond the record is made or accepted. */
  ghost predicate Passed(s: State, p: int, o: nat) {
    (p in s.committed && s.committed[p] > o) || (exists n: nat :: n > o && (p, n) in s.pending)
  }

  /** The open reader dropped the record and can still commit a later one. */
  ghost predicate LeftBehind(log: Log, s: State, p: int, o: nat) {
    && (p, o) in s.dropped && p in s.position
    && (RecordFrom(log, p, s.position[p]) || (Busy(s.pc) && s.pc.p == p))
  }

  /** Nothing is committed, so a fresh process starts at the log's end, with a record still to come there. */
  ghost predicate Unanchored(log: Log, s: State, p: int, o: nat) {
    p !in s.committed && p in s.position && RecordFrom(log, p, Max(s.position[p], o + 1))
  }

  ghost predicate AtRisk(log: Log, s: State, p: int, o: nat) {
    Passed(s, p, o) || LeftBehind(log, s, p, o) || Unanchored(log, s, p, o)
  }

  // ----- At risk: the run that loses the record, built backwards -----

  lemma StepBack(log: Log, s: State, step: Step, p: int, o: nat)
    requires Enabled(log, s, step) && !CancelsSend(s, step, p, o) && CanBeLost(log, Next(log, s, step), p, o)
    ensures CanBeLost(log, s, p, o)
  {
    var steps, s' :| Leads(log, Next(log, s, step), steps, s') && Spares(log, Next(log, s, step), steps, p, o)
                     && Overtaken(log, s', p, o);
    Precede(log, s, step, steps, s');
    assert ([step] + steps)[1..] == steps;
    assert Spares(log, s, [step] + steps, p, o);
  }

  lemma LostNow(log: Log, s: State, p: int, o: nat)
    requires Overtaken(log, s, p, o)
    ensures CanBeLost(log, s, p, o)
  {
    assert Leads(log, s, [], s) && Spares(log, s, [], p, o);
  }

  lemma LostByPending(log: Log, s: State, p: int, o: nat, n: nat)
    requires !Handled(log, s, p, o) && n > o && (p, n) in s.pending
    ensures CanBeLost(log, s, p, o)
  {
    LostNow(log, Next(log, s, Apply(p, n)), p, o);
    StepBack(log, s, Apply(p, n), p, o);
  }

  lemma LostCommitting(log: Log, s: State, p: int, o: nat)
    requires !Handled(log, s, p, o) && s.pc.Committing? && s.pc.p == p && s.pc.o > o
    ensures CanBeLost(log, s, p, o)
  {
    LostByPending(log, Next(log, s, CommitRequest(true)), p, o, s.pc.o + 1);
    StepBack(log, s, CommitRequest(true), p, o);
  }

  lemma LostSending(log: Log, s: State, p: int, o: nat)
    requires !Handled(log, s, p, o) && s.pc.Sending? && s.pc.p == p && s.pc.o > o
    ensures CanBeLost(log, s, p, o)
  {
    LostCommitting(log, Next(log, s, Enqueue), p, o);
    StepBack(log, s, Enqueue, p, o);
  }

  lemma LostDeciding(log: Log, s: State, p: int, o: nat)
    requires !Handled(log, s, p, o) && s.pc.Deciding? && s.pc.p == p && s.pc.o > o && log(p, s.pc.o).Some?
    ensures CanBeLost(log, s, p, o)
  {
    var s' := Next(log, s, Decide);
    if s'.pc.Sending? { LostSending(log, s', p, o); } else { LostCommitting(log, s', p, o); }
    StepBack(log, s, Decide, p, o);
  }

  lemma {:induction false} FirstFrom(log: Log, p: int, n: nat, m: nat) returns (first: nat)
    requires n <= m && log(p, m).Some?
    ensures NextRecord(log, p, n, first)
    decreases m - n
  {
    if log(p, n).Some? { first := n; } else { first := FirstFrom(log, p, n + 1, m); }
  }

  /** The reader is past the record and has another one to come. */
  ghost predicate ReadsOn(log: Log, s: State, p: int, o: nat) {
    !Handled(log, s, p, o) && p in s.position && s.position[p] > o && RecordFrom(log, p, s.position[p])
  }

  lemma LostFetching(log: Log, s: State, p: int, o: nat)
    requires ReadsOn(log, s, p, o) && s.pc.Fetching?
    ensures CanBeLost(log, s, p, o)
  {
    var m: nat :| m >= s.position[p] && log(p, m).Some?;
    var first := FirstFrom(log, p, s.position[p], m);
    LostDeciding(log, Next(log, s, Fetch(p, first)), p, o);
    StepBack(log, s, Fetch(p, first), p, o);
  }

  lemma LostRunning(log: Log, s: State, p: int, o: nat)
    requires ReadsOn(log, s, p, o) && s.pc.Loop? && !s.cancelled
    ensures CanBeLost(log, s, p, o)
  {
    LostFetching(log, Next(log, s, Check), p, o);
    StepBack(log, s, Check, p, o);
  }

  lemma LostStopped(log: Log, s: State, p: int, o: nat)
    requires ReadsOn(log, s, p, o) && s.pc.Stopped? && s.open
    ensures CanBeLost(log, s, p, o)
  {
    LostRunning(log, Next(log, s, Resubscribe), p, o);
    StepBack(log, s, Resubscribe, p, o);
  }

  lemma LostLooping(log: Log, s: State, p: int, o: nat)
    requires ReadsOn(log, s, p, o) && s.pc.Loop? && s.open
    ensures CanBeLost(log, s, p, o)
  {
    if s.cancelled {
      LostStopped(log, Next(log, s, Check), p, o);
      StepBack(log, s, Check, p, o);
    } else {
      LostRunning(log, s, p, o);
    }
  }

  lemma LostAfterCommit(log: Log, s: State, p: int, o: nat)
    requires ReadsOn(log, s, p, o) && s.pc.Committing? && s.open
    ensures CanBeLost(log, s, p, o)
  {
    LostLooping(log, Next(log, s, CommitRequest(true)), p, o);
    StepBack(log, s, CommitRequest(true), p, o);
  }

  lemma LostAfterSend(log: Log, s: State, p: int, o: nat)
    requires ReadsOn(log, s, p, o) && s.pc.Sending? && s.open && (s.pc.p, s.pc.o) != (p, o)
    ensures CanBeLost(log, s, p, o)
  {
    LostAfterCommit(log, Next(log, s, Enqueue), p, o);
    StepBack(log, s, Enqueue, p, o);
  }

  lemma LostAfterDecision(log: Log, s: State, p: int, o: nat)
    requires ReadsOn(log, s, p, o) && s.pc.Deciding? && s.open && (s.pc.p, s.pc.o) != (p, o)
    requires log(s.pc.p, s.pc.o).Some?
    ensures CanBeLost(log, s, p, o)
  {
    var s' := Next(log, s, Decide);
    if s'.pc.Sending? { LostAfterSend(log, s', p, o); } else { LostAfterCommit(log, s', p, o); }
    StepBack(log, s, Decide, p, o);
  }

  lemma LostBehind(log: Log, s: State, p: int, o: nat)
    requires Inv(log, s) && !Handled(log, s, p, o) && LeftBehind(log, s, p, o)
    ensures CanBeLost(log, s, p, o)
  {
    assert DropBehind(s, (p, o));
    if Busy(s.pc) && s.pc.p == p {
      match s.pc
      case Deciding(_, _) => LostDeciding(log, s, p, o);
      case Sending(_, _) => LostSending(log, s, p, o);
      case Committing(_, _) => LostCommitting(log, s, p, o);
    } else {
      match s.pc
      case Deciding(_, _) => LostAfterDecision(log, s, p, o);
      case Sending(_, _) => LostAfterSend(log, s, p, o);
      case Committing(_, _) => LostAfterCommit(log, s, p, o);
      case Fetching => LostFetching(log, s, p, o);
      case Loop => LostLooping(log, s, p, o);
      case Stopped => LostStopped(log, s, p, o);
    }
  }

  lemma LostUnanchored(log: Log, s: State, p: int, o: nat)
    requires !Handled(log, s, p, o) && Unanchored(log, s, p, o)
    ensures CanBeLost(log, s, p, o)
  {
    var latest := s.position[p := Max(s.position[p], o + 1)];
    var s1 := Next(log, s, Crash);
    var s2 := Next(log, s1, Start(latest));
    assert s2.position[p] == latest[p];
    LostRunning(log, s2, p, o);
    StepBack(log, s1, Start(latest), p, o);
    StepBack(log, s, Crash, p, o);
  }

  // ----- Not at risk: every continuation keeps the record -----

  /** Handled, or not at risk; a group start beyond it has nothing left to read. */
  ghost predicate Kept(log: Log, s: State, p: int, o: nat) {
    || Handled(log, s, p, o)
    || (&& !AtRisk(log, s, p, o) && p in s.origin
        && (s.origin[p] <= o || (p !in s.committed && !RecordFrom(log, p, s.origin[p]))))
  }

  /** If a later record of the partition is about to be committed, the reader has left this one behind. */
  lemma WhyBehind(log: Log, s: State, p: int, o: nat)
    requires Inv(log, s) && !Handled(log, s, p, o) && s.pc.Committing? && s.pc.p == p && s.pc.o > o
    ensures p in s.origin
    ensures Passed(s, p, o) || LeftBehind(log, s, p, o) || (s.origin[p] > o && RecordFrom(log, p, s.origin[p]))
  {
    assert ReadSafe(log, s, p);
    if s.resumed[p] <= o { assert Seen(log, s, p, o); }
  }

  lemma NotInTheWay(log: Log, s: State, p: int, o: nat)
    requires Inv(log, s) && Kept(log, s, p, o) && !Handled(log, s, p, o)
    requires s.pc.Committing? && s.pc.p == p
    ensures s.pc.o < o
  {
    if s.pc.o > o { WhyBehind(log, s, p, o); }
  }

  lemma PassedKept(log: Log, s: State, step: Step, p: int, o: nat)
    requires Inv(log, s) && Enabled(log, s, step) && Kept(log, s, p, o) && !Handled(log, s, p, o)
    ensures !Passed(Next(log, s, step), p, o)
  {
    var s' := Next(log, s, step);
    if step.Apply? && step.partition == p { assert (p, step.offset) in s.pending; }
    forall n: nat | (p, n) in s'.pending ensures n <= o {
      if (p, n) !in s.pending { NotInTheWay(log, s, p, o); }
    }
  }

  lemma LeftBehindBefore(log: Log, s: State, step: Step, p: int, o: nat)
    requires Inv(log, s) && Enabled(log, s, step) && !CancelsSend(s, step, p, o)
    requires LeftBehind(log, Next(log, s, step), p, o)
    ensures LeftBehind(log, s, p, o)
  {
    assert DropBehind(s, (p, o));
    if step.Fetch? && step.partition == p { assert log(p, step.offset).Some?; }
  }

  lemma Fewer(log: Log, p: int, n: nat, n': nat)
    requires !RecordFrom(log, p, n) && n <= n'
    ensures !RecordFrom(log, p, n')
  {
  }

  lemma UnanchoredKept(log: Log, s: State, step: Step, p: int, o: nat)
    requires Enabled(log, s, step) && p in s.position && !Unanchored(log, s, p, o)
    ensures !Unanchored(log, Next(log, s, step), p, o)
  {
    var s' := Next(log, s, step);
    if p !in s'.committed {
      assert p !in s.committed && s.position[p] <= s'.position[p];
      Fewer(log, p, Max(s.position[p], o + 1), Max(s'.position[p], o + 1));
    }
  }

  /** Where the group's start ends up relative to the record. */
  lemma StartKept(log: Log, s: State, step: Step, p: int, o: nat)
    requires Inv(log, s) && Enabled(log, s, step) && Kept(log, s, p, o) && !Handled(log, s, p, o)
    ensures var s' := Next(log, s, step);
            && p in s'.origin
            && (s'.origin[p] <= o || (p !in s'.committed && !RecordFrom(log, p, s'.origin[p])))
  {
    var s' := Next(log, s, step);
    if step.Start? && p !in s.committed {
      assert s'.origin[p] == step.latest[p] >= s.position[p] >= s.origin[p];
      if s'.origin[p] > o {
        Fewer(log, p, Max(s.position[p], o + 1), s'.origin[p]);
      }
    } else if step.Apply? && step.partition == p {
      assert DoneBelow(log, s, p, step.offset);
      assert step.offset <= o;
    }
  }

  lemma StepKeeps(log: Log, s: State, step: Step, p: int, o: nat)
    requires Inv(log, s) && Enabled(log, s, step) && Kept(log, s, p, o) && !CancelsSend(s, step, p, o)
    ensures Kept(log, Next(log, s, step), p, o)
  {
    if Handled(log, s, p, o) {
      StaysHandled(log, s, step, p, o);
    } else {
      PassedKept(log, s, step, p, o);
      if LeftBehind(log, Next(log, s, step), p, o) { LeftBehindBefore(log, s, step, p, o); }
      UnanchoredKept(log, s, step, p, o);
      StartKept(log, s, step, p, o);
    }
  }

  lemma {:induction false} RunKeeps(log: Log, s: State, steps: seq<Step>, s': State, p: int, o: nat)
    requires Inv(log, s) && Kept(log, s, p, o) && Leads(log, s, steps, s') && Spares(log, s, steps, p, o)
    ensures !Overtaken(log, s', p, o)
    decreases steps
  {
    if steps != [] {
      StepKeepsInv(log, s, steps[0]);
      StepKeeps(log, s, steps[0], p, o);
      RunKeeps(log, Next(log, s, steps[0]), steps[1..], s', p, o);
    }
  }

  // ----- The results -----

  /**
   At-least-once, exactly: in every reachable state, for every unhandled record at or above the
   group's starting point, some continuation that does not cancel its send commits beyond it
   unhandled, if and only if it is at risk: a commit has already passed it; or this process's reader
   dropped it and can still commit a later record of the partition; or nothing is committed for the
   partition and a record will follow where a fresh process would start.
   */
  lemma LossIff(log: Log, steps: seq<Step>, s: State, p: int, o: nat)
    requires Leads(log, Initial, steps, s)
    requires p in s.origin && s.origin[p] <= o && !Handled(log, s, p, o)
    ensures CanBeLost(log, s, p, o) <==> AtRisk(log, s, p, o)
  {
    RunKeepsInv(log, steps, s);
    if AtRisk(log, s, p, o) {
      if p in s.committed && s.committed[p] > o {
        LostNow(log, s, p, o);
      } else if Passed(s, p, o) {
        var n: nat :| n > o && (p, n) in s.pending;
        LostByPending(log, s, p, o, n);
      } else if LeftBehind(log, s, p, o) {
        LostBehind(log, s, p, o);
      } else {
        LostUnanchored(log, s, p, o);
      }
    } else {
      forall more, s' | Leads(log, s, more, s') && Spares(log, s, more, p, o) ensures !Overtaken(log, s', p, o) {
        RunKeeps(log, s, more, s', p, o);
      }
    }
  }

  // ----- With the record's own send open to cancellation, too -----

  /** Some continuation at all commits past the record unhandled. */
  ghost predicate CanBeOvertaken(log: Log, s: State, p: int, o: nat) {
    exists steps, s' :: Leads(log, s, steps, s') && Overtaken(log, s', p, o)
  }

  /** A commit for the partition is made or accepted. */
  ghost predicate HasCommit(s: State, p: int) {
    p in s.committed || exists n: nat :: (p, n) in s.pending
  }

  lemma Back(log: Log, s: State, step: Step, p: int, o: nat)
    requires Enabled(log, s, step) && CanBeOvertaken(log, Next(log, s, step), p, o)
    ensures CanBeOvertaken(log, s, p, o)
  {
    var steps, s' :| Leads(log, Next(log, s, step), steps, s') && Overtaken(log, s', p, o);
    Precede(log, s, step, steps, s');
  }

  /** Sent, cancelled, and left behind by the reader. */
  lemma CancelInSend(log: Log, s: State, p: int, o: nat)
    requires s.pc == Sending(p, o) && s.open && !Handled(log, s, p, o)
    requires p in s.position && s.position[p] == o + 1 && RecordFrom(log, p, o + 1)
    ensures CanBeOvertaken(log, s, p, o)
  {
    var s1 := Next(log, s, Cancel);
    LostLooping(log, Next(log, s1, GiveUp), p, o);
    Back(log, s1, GiveUp, p, o);
    Back(log, s, Cancel, p, o);
  }

  /** The reader runs without a filter and has not come to the record yet. */
  ghost predicate Approaches(log: Log, s: State, p: int, o: nat) {
    && s.pc.Loop? && !s.cancelled && s.open && s.filter.None?
    && p in s.position && s.position[p] <= o && !Handled(log, s, p, o) && RecordFrom(log, p, o + 1)
  }

  lemma ArriveAt(log: Log, s: State, p: int, o: nat)
    requires Approaches(log, s, p, o) && NextRecord(log, p, s.position[p], o)
    ensures CanBeOvertaken(log, s, p, o)
  {
    var s1 := Next(log, s, Check);
    var s2 := Next(log, s1, Fetch(p, o));
    CancelInSend(log, Next(log, s2, Decide), p, o);
    Back(log, s2, Decide, p, o);
    Back(log, s1, Fetch(p, o), p, o);
    Back(log, s, Check, p, o);
  }

  /** The decision on another record, up to the loop again, and no commit. */
  function Passing(log: Log, s: State): State
    requires s.pc.Deciding?
  {
    var s1 := Next(log, s, Decide);
    Next(log, if s1.pc.Sending? then Next(log, s1, Enqueue) else s1, CommitRequest(false))
  }

  lemma PassOne(log: Log, s: State, p: int, o: nat)
    requires s.pc.Deciding? && log(s.pc.p, s.pc.o).Some? && CanBeOvertaken(log, Passing(log, s), p, o)
    ensures CanBeOvertaken(log, s, p, o)
  {
    var s1 := Next(log, s, Decide);
    if s1.pc.Sending? {
      Back(log, Next(log, s1, Enqueue), CommitRequest(false), p, o);
      Back(log, s1, Enqueue, p, o);
    } else {
      Back(log, s1, CommitRequest(false), p, o);
    }
    Back(log, s, Decide, p, o);
  }

  lemma {:induction false} Approach(log: Log, s: State, p: int, o: nat)
    requires Approaches(log, s, p, o)
    ensures CanBeOvertaken(log, s, p, o)
    decreases o - s.position[p]
  {
    var m := FirstFrom(log, p, s.position[p], o);
    if m == o {
      ArriveAt(log, s, p, o);
    } else {
      var s1 := Next(log, s, Check);
      var s2 := Next(log, s1, Fetch(p, m));
      Approach(log, Passing(log, s2), p, o);
      PassOne(log, s2, p, o);
      Back(log, s1, Fetch(p, m), p, o);
      Back(log, s, Check, p, o);
    }
  }

  /** A fresh process without filter reads the record again, and its send can be cancelled. */
  lemma ReadAgain(log: Log, s: State, p: int, o: nat)
    requires p in s.committed && s.committed[p] <= o && !Handled(log, s, p, o) && RecordFrom(log, p, o + 1)
    ensures CanBeOvertaken(log, s, p, o)
  {
    var s1 := Next(log, s, Crash);
    var s2 := Next(log, s1, SetFilter(None));
    StartAgain(log, s2, p, o);
    Back(log, s1, SetFilter(None), p, o);
    Back(log, s, Crash, p, o);
  }

  lemma StartAgain(log: Log, s: State, p: int, o: nat)
    requires s.pc.Stopped? && !s.open && s.filter.None?
    requires p in s.committed && s.committed[p] <= o && !Handled(log, s, p, o) && RecordFrom(log, p, o + 1)
    ensures CanBeOvertaken(log, s, p, o)
  {
    Approach(log, Next(log, s, Start(s.position)), p, o);
    Back(log, s, Start(s.position), p, o);
  }

  /** Without a later record there is nothing to commit past it. */
  lemma NeedsLater(log: Log, s: State, p: int, o: nat)
    requires Inv(log, s) && Overtaken(log, s, p, o)
    ensures RecordFrom(log, p, o + 1)
  {
    assert FollowsHandled(log, s, p, s.committed[p]);
  }

  /** Nothing is committed for the partition, and nothing is left to read where any reader would be. */
  ghost predicate Stranded(log: Log, s: State, p: int) {
    && !HasCommit(s, p) && p in s.position && !RecordFrom(log, p, s.position[p])
    && !(Busy(s.pc) && s.pc.p == p)
  }

  lemma StrandedKept(log: Log, s: State, step: Step, p: int)
    requires Enabled(log, s, step) && Stranded(log, s, p)
    ensures Stranded(log, Next(log, s, step), p)
  {
    var s' := Next(log, s, step);
    assert s.position[p] <= s'.position[p];
    Fewer(log, p, s.position[p], s'.position[p]);
    forall n: nat ensures (p, n) !in s'.pending {
      assert (p, n) !in s.pending;
    }
  }

  lemma {:induction false} StaysStranded(log: Log, s: State, steps: seq<Step>, s': State, p: int)
    requires Leads(log, s, steps, s') && Stranded(log, s, p)
    ensures p !in s'.committed
    decreases steps
  {
    if steps != [] {
      StrandedKept(log, s, steps[0], p);
      StaysStranded(log, Next(log, s, steps[0]), steps[1..], s', p);
    }
  }

  /** Without a commit and not at risk, a record with later ones is behind a reader with nothing to read. */
  lemma WhyStranded(log: Log, s: State, p: int, o: nat)
    requires Inv(log, s) && p in s.origin && s.origin[p] <= o && !Handled(log, s, p, o)
    requires !AtRisk(log, s, p, o) && !HasCommit(s, p) && RecordFrom(log, p, o + 1)
    ensures Stranded(log, s, p)
  {
    assert s.position[p] > o + 1 && !RecordFrom(log, p, s.position[p]);
    if Busy(s.pc) && s.pc.p == p { BusyPast(log, s, p, o); }
  }

  lemma BusyPast(log: Log, s: State, p: int, o: nat)
    requires Inv(log, s) && p in s.origin && s.origin[p] <= o && !Handled(log, s, p, o)
    requires p !in s.committed && Busy(s.pc) && s.pc.p == p && s.pc.o > o
    ensures LeftBehind(log, s, p, o)
  {
    assert ReadSafe(log, s, p);
    assert Seen(log, s, p, o);
  }

  lemma NotOvertaken(log: Log, s: State, steps: seq<Step>, s': State, p: int, o: nat)
    requires Inv(log, s) && p in s.origin && s.origin[p] <= o && !Handled(log, s, p, o) && !AtRisk(log, s, p, o)
    requires !(HasCommit(s, p) && RecordFrom(log, p, o + 1)) && Leads(log, s, steps, s')
    ensures !Overtaken(log, s', p, o)
  {
    InvKept(log, s, steps, s');
    if RecordFrom(log, p, o + 1) {
      WhyStranded(log, s, p, o);
      StaysStranded(log, s, steps, s', p);
    } else if Overtaken(log, s', p, o) {
      NeedsLater(log, s', p, o);
    }
  }

  /**
   The plain property, exactly: in every reachable state, for every unhandled record at or above the
   group's starting point, some continuation commits past it unhandled, if and only if it is at risk
   already, or the partition has a commit and a later record.
   */
  lemma PlainLossIff(log: Log, steps: seq<Step>, s: State, p: int, o: nat)
    requires Leads(log, Initial, steps, s)
    requires p in s.origin && s.origin[p] <= o && !Handled(log, s, p, o)
    ensures CanBeOvertaken(log, s, p, o) <==> AtRisk(log, s, p, o) || (HasCommit(s, p) && RecordFrom(log, p, o + 1))
  {
    RunKeepsInv(log, steps, s);
    if AtRisk(log, s, p, o) {
      LossIff(log, steps, s, p, o);
    } else if HasCommit(s, p) && RecordFrom(log, p, o + 1) {
      if p in s.committed {
        ReadAgain(log, s, p, o);
      } else {
        var n: nat :| (p, n) in s.pending;
        ReadAgain(log, Next(log, s, Apply(p, n)), p, o);
        Back(log, s, Apply(p, n), p, o);
      }
    } else {
      forall more, s' | Leads(log, s, more, s') ensures !Overtaken(log, s', p, o) {
        NotOvertaken(log, s, more, s', p, o);
      }
    }
  }

  /** A fresh process reads what is owed again, and puts it out of reach of everything dropped before. */
  lemma FreshProcessRestores(log: Log, steps: seq<Step>, s: State, latest: map<int, nat>, p: int, o: nat)
    requires Leads(log, Initial, steps, s) && Enabled(log, s, Start(latest))
    requires p in s.committed && s.committed[p] <= o && !Handled(log, s, p, o)
    ensures var s' := Next(log, s, Start(latest));
            && p in s'.position && s'.position[p] <= o
            && !CanBeLost(log, s', p, o)
  {
    RunKeepsInv(log, steps, s);
    assert DoneBelow(log, s, p, s.committed[p]);
    var s' := Next(log, s, Start(latest));
    StepKeepsInv(log, s, Start(latest));
    FreshIsSafe(log, s, latest, p, o);
    forall more, s'' | Leads(log, s', more, s'') && Spares(log, s', more, p, o) ensures !Overtaken(log, s'', p, o) {
      RunKeeps(log, s', more, s'', p, o);
    }
  }

  /** Nothing is pending or dropped in a fresh process. */
  lemma FreshIsSafe(log: Log, s: State, latest: map<int, nat>, p: int, o: nat)
    requires p in s.committed && s.committed[p] <= o && p in s.origin && s.origin[p] <= s.committed[p]
    ensures Kept(log, Next(log, s, Start(latest)), p, o)
    ensures p in Next(log, s, Start(latest)).position && Next(log, s, Start(latest)).position[p] <= o
  {
  }

  /**
   The run of an ordinary reconnect: whenever a message's send is cancelled while the partition has a
   later record, the next subscription of the same process can commit past it.
   */
  lemma CancelledSendCanBeLost(log: Log, steps: seq<Step>, s: State, p: int, o: nat)
    requires Leads(log, Initial, steps, s) && s.pc == Sending(p, o) && !Handled(log, s, p, o)
    requires RecordFrom(log, p, o + 1)
    ensures var s' := Next(log, Next(log, s, Cancel), GiveUp);
            && Enabled(log, Next(log, s, Cancel), GiveUp)
            && CanBeLost(log, s', p, o)
  {
    RunKeepsInv(log, steps, s);
    var s1 := Next(log, s, Cancel);
    var s2 := Next(log, s1, GiveUp);
    StepKeepsInv(log, s, Cancel);
    StepKeepsInv(log, s1, GiveUp);
    assert s2.position[p] == o + 1;
    LostBehind(log, s2, p, o);
  }

  /** Every message a group starts on can be skipped before its first commit, if another record follows. */
  lemma UncommittedGroupCanSkip(log: Log, p: int, o: nat)
    requires !Handled(log, Initial, p, o) && RecordFrom(log, p, o + 1)
    ensures var s := Next(log, Initial, Start(map[p := o]));
            && Leads(log, Initial, [Start(map[p := o])], s) && s.position[p] == o
            && CanBeLost(log, s, p, o)
  {
    var start := Start(map[p := o]);
    var s := Next(log, Initial, start);
    assert [start][1..] == [];
    LostUnanchored(log, s, p, o);
  }

  /** The send of the message is reached unhandled. */
  ghost predicate CanSend(log: Log, s: State, p: int, o: nat) {
    exists steps, s' :: Leads(log, s, steps, s') && s'.pc == Sending(p, o) && !Handled(log, s', p, o)
  }

  lemma SendBack(log: Log, s: State, step: Step, p: int, o: nat)
    requires Enabled(log, s, step) && CanSend(log, Next(log, s, step), p, o)
    ensures CanSend(log, s, p, o)
  {
    var steps, s' :| Leads(log, Next(log, s, step), steps, s') && s'.pc == Sending(p, o) && !Handled(log, s', p, o);
    Precede(log, s, step, steps, s');
  }

  lemma SendNow(log: Log, s: State, p: int, o: nat)
    requires s.pc == Sending(p, o) && !Handled(log, s, p, o)
    ensures CanSend(log, s, p, o)
  {
    assert Leads(log, s, [], s);
  }

  lemma SendAfterFetch(log: Log, s: State, p: int, o: nat)
    requires s.pc.Fetching? && s.filter.None? && !Handled(log, s, p, o)
    requires p in s.position && s.position[p] == o
    ensures CanSend(log, s, p, o)
  {
    var s' := Next(log, s, Fetch(p, o));
    SendNow(log, Next(log, s', Decide), p, o);
    SendBack(log, s', Decide, p, o);
    SendBack(log, s, Fetch(p, o), p, o);
  }

  /** A group that starts on a message reaches its send, so cancelled sends do happen. */
  lemma SendIsReached(log: Log, p: int, o: nat)
    requires !Handled(log, Initial, p, o)
    ensures CanSend(log, Initial, p, o)
  {
    var start := Start(map[p := o]);
    var s := Next(log, Initial, start);
    SendAfterFetch(log, Next(log, s, Check), p, o);
    SendBack(log, s, Check, p, o);
    SendBack(log, Initial, start, p, o);
  }

  lemma Precede(log: Log, s: State, step: Step, steps: seq<Step>, s': State)
    requires Enabled(log, s, step) && Leads(log, Next(log, s, step), steps, s')
    ensures Leads(log, s, [step] + steps, s')
  {
    assert ([step] + steps)[1..] == steps;
  }
}
