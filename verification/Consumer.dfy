/**
 The Kafka consumer as a protocol of steps: fetch, decide, send, commit, with cancellation, crashes,
 restarts and resubscriptions at any moment and commits that fail, are lost, or reach the broker late
 and in any order. One process has one reader. A subscription that follows a cancelled one in the
 same process goes on where that reader stands; a fresh process resumes at the committed offsets. The
 partition logs are a function from partition and offset to a record; offsets without a record are
 gaps.
 */
module Consumer {
  import opened Prelude
  import opened Events

  datatype Record = Garbled | Message(event: Event)

  type Log = (int, nat) -> Option<Record>

  datatype PC =
    | Stopped
    | Loop
    | Fetching
    | Deciding(p: int, o: nat)
    | Sending(p: int, o: nat)
    | Committing(p: int, o: nat)

  datatype State = State(
    committed: map<int, nat>,          // the broker's group offsets: where a fresh process resumes
    pending: set<(int, nat)>,          // commits accepted by the reader and not yet applied
    open: bool,                        // the process has its reader
    position: map<int, nat>,           // the reader's next offset to fetch, per partition
    resumed: map<int, nat>,            // where the reader started, per partition
    dropped: set<(int, nat)>,          // messages of this reader that lost their send to cancellation
    filter: Option<Event -> bool>,
    pc: PC,
    cancelled: bool,
    gaveUp: bool,                      // the session's last message lost its send to cancellation
    origin: map<int, nat>,             // where the group started reading a partition
    enqueued: seq<(int, nat)>,         // everything ever sent into an event channel
    session: nat,                      // how much of it precedes the current session
    rejected: set<(int, nat)>,         // everything ever turned down by a filter
    givenUp: set<(int, nat)>)          // everything whose send ever lost to cancellation

  datatype Step =
    | Start(latest: map<int, nat>)     // Subscribe in a fresh process; `latest` are the log ends
    | Resubscribe                      // Subscribe again in the same process
    | Check                            // the loop's test for cancellation
    | Fetch(partition: int, offset: nat)
    | FetchError
    | Decide
    | Enqueue
    | GiveUp                           // the send loses to cancellation
    | CommitRequest(accepted: bool)
    | Cancel
    | Crash                            // the process ends, or Unsubscribe closes its reader
    | Apply(partition: int, offset: nat)
    | Lose(partition: int, offset: nat)
    | SetFilter(newFilter: Option<Event -> bool>)

  const Initial: State :=
    State(map[], {}, false, map[], map[], {}, None, Stopped, false, false, map[], [], 0, {}, {})

  ghost predicate NextRecord(log: Log, p: int, from: nat, o: nat) {
    from <= o && log(p, o).Some? && forall k: nat :: from <= k < o ==> log(p, k).None?
  }

  /** Log ends do not move backwards. */
  ghost predicate NotBefore(s: State, latest: map<int, nat>) {
    forall p :: p in s.position && p !in s.committed ==> p in latest && s.position[p] <= latest[p]
  }

  ghost predicate Enabled(log: Log, s: State, step: Step) {
    match step
    case Start(latest) => s.pc.Stopped? && !s.open && NotBefore(s, latest)
    case Resubscribe => s.pc.Stopped? && s.open
    case Check => s.pc.Loop?
    case Fetch(p, o) => s.pc.Fetching? && p in s.position && NextRecord(log, p, s.position[p], o)
    case FetchError => s.pc.Fetching?
    case Decide => s.pc.Deciding?
    case Enqueue => s.pc.Sending?
    case GiveUp => s.pc.Sending? && s.cancelled
    case CommitRequest(_) => s.pc.Committing?
    case Cancel => true
    case Crash => true
    case Apply(p, n) => (p, n) in s.pending
    case Lose(p, n) => (p, n) in s.pending
    case SetFilter(_) => true
  }

  /** A fresh reader resumes at the committed offset, and at the log's end where nothing is committed. */
  function Resume(s: State, latest: map<int, nat>): map<int, nat> {
    latest + s.committed
  }

  predicate Rejects(log: Log, s: State) {
    s.pc.Deciding? && s.filter.Some? &&
    match log(s.pc.p, s.pc.o) { case Some(Message(e)) => !s.filter.value(e) case _ => false }
  }

  /** Undecodable and rejected messages go straight to their commit, the others to the channel. */
  function PcAfter(log: Log, s: State, step: Step): PC {
    match step
    case Start(_) => Loop
    case Resubscribe => Loop
    case Check => if s.cancelled then Stopped else Fetching
    case Fetch(p, o) => Deciding(p, o)
    case FetchError => Loop
    case Decide =>
      if !s.pc.Deciding? || log(s.pc.p, s.pc.o).None? then s.pc
      else if log(s.pc.p, s.pc.o).value.Garbled? || Rejects(log, s) then Committing(s.pc.p, s.pc.o)
      else Sending(s.pc.p, s.pc.o)
    case Enqueue => if s.pc.Sending? then Committing(s.pc.p, s.pc.o) else s.pc
    case GiveUp => Loop
    case CommitRequest(_) => Loop
    case Crash => Stopped
    case _ => s.pc
  }

  function PendingAfter(s: State, step: Step): set<(int, nat)> {
    match step
    case Start(_) => {}
    case Crash => {}
    case CommitRequest(accepted) => if accepted && s.pc.Committing? then s.pending + {(s.pc.p, s.pc.o + 1)} else s.pending
    case Apply(p, n) => s.pending - {(p, n)}
    case Lose(p, n) => s.pending - {(p, n)}
    case _ => s.pending
  }

  /** What a cancelled send leaves unsent. */
  function InSend(s: State, step: Step): set<(int, nat)> {
    if step.GiveUp? && s.pc.Sending? then {(s.pc.p, s.pc.o)} else {}
  }

  predicate Subscribes(step: Step) {
    step.Start? || step.Resubscribe?
  }

  function Next(log: Log, s: State, step: Step): State {
    State(
      if step.Apply? then s.committed[step.partition := step.offset] else s.committed,
      PendingAfter(s, step),
      step.Start? || (s.open && !step.Crash?),
      if step.Start? then Resume(s, step.latest)
      else if step.Fetch? then s.position[step.partition := step.offset + 1]
      else s.position,
      if step.Start? then Resume(s, step.latest) else s.resumed,
      if step.Start? || step.Crash? then {} else s.dropped + InSend(s, step),
      if step.SetFilter? then step.newFilter else s.filter,
      PcAfter(log, s, step),
      if Subscribes(step) then false else s.cancelled || step.Cancel?,
      if Subscribes(step) then false else s.gaveUp || step.GiveUp?,
      if step.Start? then s.origin + (step.latest - s.committed.Keys) else s.origin,
      if step.Enqueue? && s.pc.Sending? then s.enqueued + [(s.pc.p, s.pc.o)] else s.enqueued,
      if Subscribes(step) then |s.enqueued| else s.session,
      if step.Decide? && Rejects(log, s) then s.rejected + {(s.pc.p, s.pc.o)} else s.rejected,
      s.givenUp + InSend(s, step))
  }

  /** The steps are enabled in turn from `s` and end in `s'`. */
  ghost predicate Leads(log: Log, s: State, steps: seq<Step>, s': State)
    decreases steps
  {
    if steps == [] then s == s'
    else Enabled(log, s, steps[0]) && Leads(log, Next(log, s, steps[0]), steps[1..], s')
  }

  // ----- Invariant -----

  /** Nothing is owed for this offset any more. */
  ghost predicate Handled(log: Log, s: State, p: int, o: nat) {
    || log(p, o).None?
    || log(p, o).value.Garbled?
    || (p, o) in s.rejected
    || (p, o) in s.enqueued
  }

  ghost predicate Accounted(log: Log, s: State, p: int, o: nat) {
    Handled(log, s, p, o) || (p, o) in s.givenUp
  }

  ghost predicate DoneBelow(log: Log, s: State, p: int, n: nat) {
    p in s.origin && s.origin[p] <= n && forall o: nat :: s.origin[p] <= o < n ==> Accounted(log, s, p, o)
  }

  predicate Busy(pc: PC) {
    pc.Deciding? || pc.Sending? || pc.Committing?
  }

  predicate Undecided(pc: PC) {
    pc.Deciding? || pc.Sending?
  }

  ghost predicate CommitsSafe(log: Log, s: State) {
    && (forall p :: p in s.committed ==> DoneBelow(log, s, p, s.committed[p]))
    && (forall c :: c in s.pending ==> DoneBelow(log, s, c.0, c.1))
  }

  /** The offset comes right after a record, and that record is handled. */
  ghost predicate FollowsHandled(log: Log, s: State, p: int, n: nat) {
    n >= 1 && log(p, n - 1).Some? && Handled(log, s, p, n - 1)
  }

  ghost predicate CommitsReal(log: Log, s: State) {
    && (forall p :: p in s.committed ==> FollowsHandled(log, s, p, s.committed[p]))
    && (forall c :: c in s.pending ==> FollowsHandled(log, s, c.0, c.1))
  }

  /** Without a reader there is nothing under way. */
  ghost predicate ClosedRests(s: State) {
    !s.open ==> s.pc.Stopped? && s.pending == {} && s.dropped == {}
  }

  /** What the reader has passed: handled, in hand, or dropped by this reader. */
  ghost predicate Seen(log: Log, s: State, p: int, o: nat) {
    Handled(log, s, p, o) || (Undecided(s.pc) && s.pc.p == p && s.pc.o == o) || (p, o) in s.dropped
  }

  ghost predicate ReadSafe(log: Log, s: State, p: int)
    requires p in s.position
  {
    && p in s.resumed && s.resumed[p] <= s.position[p] && DoneBelow(log, s, p, s.resumed[p])
    && forall o: nat :: s.resumed[p] <= o < s.position[p] ==> Seen(log, s, p, o)
  }

  ghost predicate ReaderSafe(log: Log, s: State) {
    s.open ==> forall p :: p in s.position ==> ReadSafe(log, s, p)
  }

  ghost predicate HandSafe(log: Log, s: State) {
    Busy(s.pc) ==>
      && log(s.pc.p, s.pc.o).Some?
      && s.pc.p in s.position && s.position[s.pc.p] == s.pc.o + 1
      && s.pc.p in s.resumed && s.resumed[s.pc.p] <= s.pc.o
      && (s.pc.Committing? ==> Handled(log, s, s.pc.p, s.pc.o))
  }

  predicate DropBehind(s: State, d: (int, nat)) {
    && d in s.givenUp && d.0 in s.position && d.1 < s.position[d.0]
    && (Busy(s.pc) && s.pc.p == d.0 ==> d.1 < s.pc.o)
  }

  ghost predicate DropsBehind(s: State) {
    forall d :: d in s.dropped ==> DropBehind(s, d)
  }

  /** Every partition ever started on has a position, and an uncommitted one only moves forward. */
  ghost predicate Known(s: State) {
    forall p :: p in s.origin ==> p in s.position && (p !in s.committed ==> s.origin[p] <= s.position[p])
  }

  /** The reader's commits lie ahead of its start, which is the group's where nothing is committed. */
  ghost predicate Forward(s: State) {
    s.open ==>
      && (forall c :: c in s.pending ==> c.0 in s.resumed && s.resumed[c.0] < c.1)
      && (forall p :: p in s.resumed && p in s.committed ==> s.resumed[p] <= s.committed[p])
      && (forall p :: p in s.resumed && p !in s.committed ==> p in s.origin && s.origin[p] == s.resumed[p])
  }

  ghost predicate DropEnds(s: State) {
    s.gaveUp ==> s.cancelled && (s.pc.Loop? || s.pc.Stopped?)
  }

  /** The session's deliveries per partition have strictly increasing offsets. */
  ghost predicate Increasing(s: State) {
    && s.session <= |s.enqueued|
    && (forall i, j :: s.session <= i < j < |s.enqueued| && s.enqueued[i].0 == s.enqueued[j].0 ==>
          s.enqueued[i].1 < s.enqueued[j].1)
  }

  predicate BehindAt(s: State, d: (int, nat)) {
    && d.0 in s.position && d.1 < s.position[d.0]
    && (Undecided(s.pc) && d.0 == s.pc.p ==> d.1 < s.pc.o)
  }

  /** A running session has delivered only what lies behind its fetch position and before the message in hand. */
  ghost predicate Behind(s: State) {
    !s.pc.Stopped? ==> forall i :: s.session <= i < |s.enqueued| ==> BehindAt(s, s.enqueued[i])
  }

  ghost predicate Inv(log: Log, s: State) {
    && CommitsSafe(log, s) && CommitsReal(log, s) && ClosedRests(s) && ReaderSafe(log, s) && HandSafe(log, s) && DropsBehind(s)
    && Known(s) && Forward(s) && DropEnds(s) && Increasing(s) && Behind(s)
  }

  /** Histories only grow. */
  lemma Grows(log: Log, s: State, step: Step)
    ensures s.enqueued <= Next(log, s, step).enqueued
    ensures s.rejected <= Next(log, s, step).rejected
    ensures s.givenUp <= Next(log, s, step).givenUp
    ensures Next(log, s, step).origin == if step.Start? then s.origin + (step.latest - s.committed.Keys) else s.origin
  {
  }

  lemma StaysHandled(log: Log, s: State, step: Step, p: int, o: nat)
    requires Handled(log, s, p, o)
    ensures Handled(log, Next(log, s, step), p, o)
  {
    Grows(log, s, step);
  }

  /** What is accounted for stays so, and the starting points of committed partitions stay put. */
  lemma Monotone(log: Log, s: State, step: Step, p: int, n: nat)
    requires Enabled(log, s, step) && DoneBelow(log, s, p, n)
    requires step.Start? ==> p in s.committed || p !in step.latest
    ensures DoneBelow(log, Next(log, s, step), p, n)
  {
    var s' := Next(log, s, step);
    Grows(log, s, step);
    assert s'.origin[p] == s.origin[p];
    forall o: nat | s.origin[p] <= o < n ensures Accounted(log, s', p, o) {
      assert Accounted(log, s, p, o);
    }
  }

  /** Everything up to and including the message whose commit is next. */
  lemma DoneInHand(log: Log, s: State)
    requires ReaderSafe(log, s) && HandSafe(log, s) && DropsBehind(s) && s.open && s.pc.Committing?
    ensures DoneBelow(log, s, s.pc.p, s.pc.o + 1)
  {
    var p := s.pc.p;
    assert ReadSafe(log, s, p);
    forall o: nat | s.origin[p] <= o < s.pc.o + 1 ensures Accounted(log, s, p, o) {
      if s.resumed[p] <= o {
        assert Seen(log, s, p, o);
        if (p, o) in s.dropped { assert DropBehind(s, (p, o)); }
      }
    }
  }

  lemma CommitsKept(log: Log, s: State, step: Step)
    requires Enabled(log, s, step) && Inv(log, s)
    ensures CommitsSafe(log, Next(log, s, step))
  {
    var s' := Next(log, s, step);
    forall p | p in s'.committed ensures DoneBelow(log, s', p, s'.committed[p]) {
      if step.Apply? && p == step.partition {
        assert (step.partition, step.offset) in s.pending;
        Monotone(log, s, step, p, step.offset);
      } else {
        Monotone(log, s, step, p, s.committed[p]);
      }
    }
    forall c | c in s'.pending ensures DoneBelow(log, s', c.0, c.1) {
      if c in s.pending {
        Monotone(log, s, step, c.0, c.1);
      } else {
        assert c == (s.pc.p, s.pc.o + 1);
        DoneInHand(log, s);
        Monotone(log, s, step, s.pc.p, s.pc.o + 1);
      }
    }
  }

  lemma RealKept(log: Log, s: State, step: Step)
    requires Enabled(log, s, step) && CommitsReal(log, s) && HandSafe(log, s)
    ensures CommitsReal(log, Next(log, s, step))
  {
    var s' := Next(log, s, step);
    forall p | p in s'.committed ensures FollowsHandled(log, s', p, s'.committed[p]) {
      if step.Apply? && p == step.partition { assert (p, step.offset) in s.pending; }
      StaysHandled(log, s, step, p, s'.committed[p] - 1);
    }
    forall c | c in s'.pending ensures FollowsHandled(log, s', c.0, c.1) {
      StaysHandled(log, s, step, c.0, c.1 - 1);
    }
  }

  lemma StartSafe(log: Log, s: State, latest: map<int, nat>)
    requires Enabled(log, s, Start(latest)) && CommitsSafe(log, s)
    ensures ReaderSafe(log, Next(log, s, Start(latest)))
  {
    var s' := Next(log, s, Start(latest));
    forall p | p in s'.position ensures ReadSafe(log, s', p) {
      if p in s.committed {
        Monotone(log, s, Start(latest), p, s.committed[p]);
      } else {
        assert s'.origin[p] == latest[p] == s'.resumed[p];
      }
    }
  }

  /** What was seen before a step of a running reader is seen after it. */
  lemma StaysSeen(log: Log, s: State, step: Step, p: int, o: nat)
    requires Enabled(log, s, step) && HandSafe(log, s) && Seen(log, s, p, o) && !step.Start? && !step.Crash?
    ensures Seen(log, Next(log, s, step), p, o)
  {
    if Handled(log, s, p, o) { StaysHandled(log, s, step, p, o); }
  }

  lemma ReadKept(log: Log, s: State, step: Step, p: int)
    requires Enabled(log, s, step) && HandSafe(log, s) && !step.Start? && !step.Crash?
    requires p in s.position && ReadSafe(log, s, p)
    ensures ReadSafe(log, Next(log, s, step), p)
  {
    var s' := Next(log, s, step);
    Monotone(log, s, step, p, s.resumed[p]);
    forall o: nat | s'.resumed[p] <= o < s'.position[p] ensures Seen(log, s', p, o) {
      if o < s.position[p] { StaysSeen(log, s, step, p, o); }
    }
  }

  lemma ReaderKept(log: Log, s: State, step: Step)
    requires Enabled(log, s, step) && Inv(log, s)
    ensures ReaderSafe(log, Next(log, s, step))
  {
    var s' := Next(log, s, step);
    if step.Start? {
      StartSafe(log, s, step.latest);
    } else if s'.open {
      forall p | p in s'.position ensures ReadSafe(log, s', p) {
        ReadKept(log, s, step, p);
      }
    }
  }

  lemma HandKept(log: Log, s: State, step: Step)
    requires Enabled(log, s, step) && Inv(log, s)
    ensures HandSafe(log, Next(log, s, step))
  {
    if step.Fetch? {
      assert ReadSafe(log, s, step.partition);
    } else if Busy(Next(log, s, step).pc) {
      InHandKept(log, s, step);
    }
  }

  lemma InHandKept(log: Log, s: State, step: Step)
    requires Enabled(log, s, step) && HandSafe(log, s) && !step.Fetch? && Busy(Next(log, s, step).pc)
    ensures HandSafe(log, Next(log, s, step))
  {
    assert Busy(s.pc) && !step.Start?;
    if s.pc.Committing? { StaysHandled(log, s, step, s.pc.p, s.pc.o); }
  }

  lemma DropsKept(log: Log, s: State, step: Step)
    requires Enabled(log, s, step) && HandSafe(log, s) && DropsBehind(s)
    ensures DropsBehind(Next(log, s, step))
  {
    var s' := Next(log, s, step);
    forall d | d in s'.dropped ensures DropBehind(s', d) {
      if d in s.dropped { assert DropBehind(s, d); }
    }
  }

  lemma ForwardKept(log: Log, s: State, step: Step)
    requires Enabled(log, s, step) && HandSafe(log, s) && ClosedRests(s) && Forward(s)
    ensures Forward(Next(log, s, step))
  {
  }

  lemma KnownKept(log: Log, s: State, step: Step)
    requires Enabled(log, s, step) && Known(s) && CommitsSafe(log, s)
    ensures Known(Next(log, s, step))
  {
  }

  lemma BehindAtKept(log: Log, s: State, step: Step, d: (int, nat))
    requires Enabled(log, s, step) && !s.pc.Stopped? && !Subscribes(step) && BehindAt(s, d)
    ensures BehindAt(Next(log, s, step), d)
  {
  }

  lemma BehindKept(log: Log, s: State, step: Step)
    requires Enabled(log, s, step) && HandSafe(log, s) && Increasing(s) && Behind(s)
    ensures Behind(Next(log, s, step))
  {
    var s' := Next(log, s, step);
    if !s'.pc.Stopped? && !Subscribes(step) {
      assert !s.pc.Stopped?;
      forall i | s'.session <= i < |s'.enqueued| ensures BehindAt(s', s'.enqueued[i]) {
        if i < |s.enqueued| { BehindAtKept(log, s, step, s.enqueued[i]); }
      }
    }
  }

  lemma IncreasingKept(log: Log, s: State, step: Step)
    requires Enabled(log, s, step) && Increasing(s) && Behind(s)
    ensures Increasing(Next(log, s, step))
  {
    var s' := Next(log, s, step);
    if step.Enqueue? {
      var n := |s.enqueued|;
      forall i | s.session <= i < n && s.enqueued[i].0 == s.pc.p ensures s'.enqueued[i].1 < s'.enqueued[n].1 {
        assert BehindAt(s, s.enqueued[i]);
      }
    } else {
      assert s'.enqueued == s.enqueued;
    }
  }

  lemma SmallKept(log: Log, s: State, step: Step)
    requires Enabled(log, s, step) && ClosedRests(s) && DropEnds(s)
    ensures ClosedRests(Next(log, s, step)) && DropEnds(Next(log, s, step))
  {
  }

  lemma StepKeepsInv(log: Log, s: State, step: Step)
    requires Enabled(log, s, step) && Inv(log, s)
    ensures Inv(log, Next(log, s, step))
  {
    CommitsKept(log, s, step);
    RealKept(log, s, step);
    SmallKept(log, s, step);
    ReaderKept(log, s, step);
    HandKept(log, s, step);
    DropsKept(log, s, step);
    KnownKept(log, s, step);
    ForwardKept(log, s, step);
    BehindKept(log, s, step);
    IncreasingKept(log, s, step);
  }

  lemma {:induction false} InvKept(log: Log, s: State, steps: seq<Step>, s': State)
    requires Inv(log, s) && Leads(log, s, steps, s')
    ensures Inv(log, s')
    decreases steps
  {
    if steps != [] {
      StepKeepsInv(log, s, steps[0]);
      InvKept(log, Next(log, s, steps[0]), steps[1..], s');
    }
  }

  lemma InitialInv(log: Log)
    ensures Inv(log, Initial)
  {
  }

  lemma RunKeepsInv(log: Log, steps: seq<Step>, s: State)
    requires Leads(log, Initial, steps, s)
    ensures Inv(log, s)
  {
    InitialInv(log);
    InvKept(log, Initial, steps, s);
  }

  // ----- What a run guarantees -----

  /**
   After any sequence of crashes, restarts and resubscriptions, with commits failing, lost or late,
   every record below a committed offset and not before the group's starting point was sent into an
   event channel, turned down by a filter, undecodable, or lost its send to cancellation; so in runs
   without a cancelled send delivery is at least once. `ConsumerLoss` says what becomes of the rest.
   */
  lemma AtLeastOnce(log: Log, steps: seq<Step>, s: State, p: int, o: nat)
    requires Leads(log, Initial, steps, s) && p in s.committed
    ensures p in s.origin && s.origin[p] <= s.committed[p]
    ensures s.origin[p] <= o < s.committed[p] && log(p, o).Some? ==>
              log(p, o).value.Garbled? || (p, o) in s.rejected || (p, o) in s.enqueued || (p, o) in s.givenUp
    ensures (forall k :: 0 <= k < |steps| ==> !steps[k].GiveUp?) ==> s.givenUp == {}
  {
    RunKeepsInv(log, steps, s);
    assert DoneBelow(log, s, p, s.committed[p]);
    if s.origin[p] <= o < s.committed[p] { assert Accounted(log, s, p, o); }
    if forall k :: 0 <= k < |steps| ==> !steps[k].GiveUp? { NothingGivenUp(log, Initial, steps, s); }
  }

  lemma {:induction false} NothingGivenUp(log: Log, s: State, steps: seq<Step>, s': State)
    requires Leads(log, s, steps, s') && forall k :: 0 <= k < |steps| ==> !steps[k].GiveUp?
    ensures s'.givenUp == s.givenUp
    decreases steps
  {
    if steps != [] { NothingGivenUp(log, Next(log, s, steps[0]), steps[1..], s'); }
  }

  lemma OriginStep(log: Log, s: State, step: Step, p: int)
    requires Enabled(log, s, step) && p in s.committed && p in s.origin
    ensures p in Next(log, s, step).committed && p in Next(log, s, step).origin
    ensures Next(log, s, step).origin[p] == s.origin[p]
  {
  }

  /** Once a partition has a committed offset it keeps one, and its starting point never moves. */
  lemma {:induction false} OriginFixed(log: Log, s: State, steps: seq<Step>, s': State, p: int)
    requires Inv(log, s) && Leads(log, s, steps, s') && p in s.committed
    ensures p in s'.committed
    ensures p in s.origin && p in s'.origin && s'.origin[p] == s.origin[p]
    decreases steps
  {
    assert DoneBelow(log, s, p, s.committed[p]);
    if steps != [] {
      StepKeepsInv(log, s, steps[0]);
      OriginStep(log, s, steps[0], p);
      OriginFixed(log, Next(log, s, steps[0]), steps[1..], s', p);
    }
  }

  /** Within a session each partition's deliveries have strictly increasing offsets. */
  lemma DeliveredInOrder(log: Log, steps: seq<Step>, s: State, i: int, j: int)
    requires Leads(log, Initial, steps, s)
    requires s.session <= i < j < |s.enqueued| && s.enqueued[i].0 == s.enqueued[j].0
    ensures s.enqueued[i].1 < s.enqueued[j].1
  {
    RunKeepsInv(log, steps, s);
  }

  lemma DropStep(log: Log, s: State, step: Step)
    requires Enabled(log, s, step) && DropEnds(s) && s.gaveUp && !Subscribes(step)
    ensures var s' := Next(log, s, step);
            s'.gaveUp && DropEnds(s') && s'.pending <= s.pending && s'.enqueued == s.enqueued
  {
  }

  /** After a cancelled send the session delivers nothing and commits nothing more. */
  lemma {:induction false} NothingAfterDrop(log: Log, s: State, steps: seq<Step>, s': State)
    requires Inv(log, s) && s.gaveUp && Leads(log, s, steps, s')
    requires forall k :: 0 <= k < |steps| ==> !Subscribes(steps[k])
    ensures s'.gaveUp && s'.pending <= s.pending && s'.enqueued == s.enqueued
    decreases steps
  {
    if steps != [] {
      StepKeepsInv(log, s, steps[0]);
      DropStep(log, s, steps[0]);
      NothingAfterDrop(log, Next(log, s, steps[0]), steps[1..], s');
    }
  }

  // ----- What is delivered and what is turned down -----

  /** In state `s` the consumer is about to decide on a message that no filter or the filter in force lets pass. */
  ghost predicate LetsPass(log: Log, s: State, p: int, o: nat) {
    && s.pc == Deciding(p, o) && log(p, o).Some? && log(p, o).value.Message?
    && (s.filter.Some? ==> s.filter.value(log(p, o).value.event))
  }

  /** In state `s` the consumer is about to decide on a message that the filter in force refuses. */
  ghost predicate TurnsDown(log: Log, s: State, p: int, o: nat) {
    && s.pc == Deciding(p, o) && log(p, o).Some? && log(p, o).value.Message?
    && s.filter.Some? && !s.filter.value(log(p, o).value.event)
  }

  /** Step `m` of a run from `s` is the decision on a record, taken in state `at`. */
  ghost predicate DecidedAt(log: Log, s: State, steps: seq<Step>, m: nat, at: State) {
    m < |steps| && steps[m].Decide? && Leads(log, s, steps[..m], at)
  }

  ghost predicate LetPass(log: Log, s: State, steps: seq<Step>, p: int, o: nat) {
    exists m, at :: DecidedAt(log, s, steps, m, at) && LetsPass(log, at, p, o)
  }

  ghost predicate TurnedDown(log: Log, s: State, steps: seq<Step>, p: int, o: nat) {
    exists m, at :: DecidedAt(log, s, steps, m, at) && TurnsDown(log, at, p, o)
  }

  lemma DecidedNow(log: Log, s: State, steps: seq<Step>)
    requires steps != [] && steps[0].Decide?
    ensures DecidedAt(log, s, steps, 0, s)
  {
    assert steps[..0] == [];
  }

  lemma DecidedLater(log: Log, s: State, steps: seq<Step>, m: nat, at: State)
    requires steps != [] && Enabled(log, s, steps[0]) && DecidedAt(log, Next(log, s, steps[0]), steps[1..], m, at)
    ensures DecidedAt(log, s, steps, m + 1, at)
  {
    assert steps[..m + 1][1..] == steps[1..][..m];
  }

  /** One step: what it puts into the channel was in the send, and what comes into the send was let pass. */
  lemma SendStep(log: Log, s: State, step: Step, d: (int, nat))
    requires Enabled(log, s, step)
    ensures d in Next(log, s, step).enqueued ==> d in s.enqueued || s.pc == Sending(d.0, d.1)
    ensures d in Next(log, s, step).givenUp ==> d in s.givenUp || s.pc == Sending(d.0, d.1)
    ensures Next(log, s, step).pc == Sending(d.0, d.1) ==> s.pc == Sending(d.0, d.1) || (step.Decide? && LetsPass(log, s, d.0, d.1))
    ensures d in Next(log, s, step).rejected ==> d in s.rejected || (step.Decide? && TurnsDown(log, s, d.0, d.1))
  {
  }

  lemma {:induction false} DeliveredFrom(log: Log, s: State, steps: seq<Step>, s': State, d: (int, nat))
    requires Leads(log, s, steps, s') && (d in s'.enqueued || d in s'.givenUp || s'.pc == Sending(d.0, d.1))
    ensures d in s.enqueued || d in s.givenUp || s.pc == Sending(d.0, d.1) || LetPass(log, s, steps, d.0, d.1)
    decreases steps
  {
    if steps != [] {
      var s1 := Next(log, s, steps[0]);
      DeliveredFrom(log, s1, steps[1..], s', d);
      SendStep(log, s, steps[0], d);
      if LetPass(log, s1, steps[1..], d.0, d.1) {
        var m, at :| DecidedAt(log, s1, steps[1..], m, at) && LetsPass(log, at, d.0, d.1);
        DecidedLater(log, s, steps, m, at);
      } else if steps[0].Decide? && LetsPass(log, s, d.0, d.1) {
        DecidedNow(log, s, steps);
      }
    }
  }

  lemma {:induction false} RejectedFrom(log: Log, s: State, steps: seq<Step>, s': State, d: (int, nat))
    requires Leads(log, s, steps, s') && d in s'.rejected
    ensures d in s.rejected || TurnedDown(log, s, steps, d.0, d.1)
    decreases steps
  {
    if steps != [] {
      var s1 := Next(log, s, steps[0]);
      RejectedFrom(log, s1, steps[1..], s', d);
      SendStep(log, s, steps[0], d);
      if TurnedDown(log, s1, steps[1..], d.0, d.1) {
        var m, at :| DecidedAt(log, s1, steps[1..], m, at) && TurnsDown(log, at, d.0, d.1);
        DecidedLater(log, s, steps, m, at);
      } else if steps[0].Decide? && TurnsDown(log, s, d.0, d.1) {
        DecidedNow(log, s, steps);
      }
    }
  }

  /**
   Over every run: whatever reached a channel, or the send that was cancelled, is a message that the
   filter in force at its decision let pass; whatever was turned down is a message that the filter in
   force refused; and an undecodable record is neither.
   */
  lemma OnlyAcceptedDelivered(log: Log, steps: seq<Step>, s: State, p: int, o: nat)
    requires Leads(log, Initial, steps, s)
    ensures (p, o) in s.enqueued || (p, o) in s.givenUp ==> LetPass(log, Initial, steps, p, o)
    ensures (p, o) in s.rejected ==> TurnedDown(log, Initial, steps, p, o)
    ensures log(p, o) == Some(Garbled) ==> (p, o) !in s.enqueued && (p, o) !in s.givenUp && (p, o) !in s.rejected
  {
    if (p, o) in s.enqueued || (p, o) in s.givenUp { DeliveredFrom(log, Initial, steps, s, (p, o)); }
    if (p, o) in s.rejected { RejectedFrom(log, Initial, steps, s, (p, o)); }
  }

  /** The decision itself, in every state: send it, or commit it without sending. */
  lemma Decision(log: Log, s: State, p: int, o: nat)
    requires s.pc == Deciding(p, o) && log(p, o).Some?
    ensures LetsPass(log, s, p, o) ==> Next(log, s, Decide).pc == Sending(p, o) && Next(log, s, Decide).rejected == s.rejected
    ensures TurnsDown(log, s, p, o) ==>
              Next(log, s, Decide).pc == Committing(p, o) && Next(log, s, Decide).rejected == s.rejected + {(p, o)}
    ensures log(p, o).value.Garbled? ==> Next(log, s, Decide).pc == Committing(p, o) && Next(log, s, Decide).rejected == s.rejected
    ensures LetsPass(log, s, p, o) || TurnsDown(log, s, p, o) || log(p, o).value.Garbled?
  {
  }
}
