/**
 From the consumer to the client: the broker channel, the forwarder, the output channel and the
 stream handler. Channels are bounded queues; a send also succeeds by handing over directly to a
 waiting receiver, which is how an unbuffered channel works. A message dropped by a stopped
 forwarder or handler stays in that component's hand, so that nothing leaves the accounts.
 */
module Pipeline {
  import opened Prelude
  import opened Sequences

  datatype Caps = Caps(inCap: nat, outCap: nat)

  datatype State<T> = State(
    enqueued: seq<T>,          // what the consumer has sent into the broker channel
    committed: set<nat>,       // which of it, by position, has been committed
    uncommitted: bool,         // the last one awaits the outcome of its commit
    inBuf: seq<T>,
    forwarderUp: bool,
    forwarderHand: seq<T>,
    outBuf: seq<T>,
    handlerUp: bool,
    handlerHand: seq<T>,
    sent: seq<T>)              // what the client has received

  datatype Step<T> =
    | Enqueue(e: T) | EnqueueDirect(e: T) | Commit(ok: bool)
    | ForwarderReceive | ForwarderSend | ForwarderDirect | ForwarderStop
    | HandlerReceive | HandlerSend | HandlerStop

  function Start<T>(): State<T> {
    State([], {}, false, [], true, [], [], true, [], [])
  }

  predicate ForwarderWaits<T>(s: State<T>) {
    s.forwarderUp && s.forwarderHand == []
  }

  predicate HandlerWaits<T>(s: State<T>) {
    s.handlerUp && s.handlerHand == []
  }

  predicate Enabled<T>(c: Caps, s: State<T>, step: Step<T>) {
    match step
    case Enqueue(_) => !s.uncommitted && |s.inBuf| < c.inCap
    case EnqueueDirect(_) => !s.uncommitted && s.inBuf == [] && ForwarderWaits(s)
    case Commit(_) => s.uncommitted
    case ForwarderReceive => ForwarderWaits(s) && s.inBuf != []
    case ForwarderSend => s.forwarderUp && s.forwarderHand != [] && |s.outBuf| < c.outCap
    case ForwarderDirect => s.forwarderUp && s.forwarderHand != [] && s.outBuf == [] && HandlerWaits(s)
    case ForwarderStop => s.forwarderUp
    case HandlerReceive => HandlerWaits(s) && s.outBuf != []
    case HandlerSend => s.handlerUp && s.handlerHand != []
    case HandlerStop => s.handlerUp
  }

  function Next<T>(c: Caps, s: State<T>, step: Step<T>): State<T>
    requires Enabled(c, s, step)
  {
    State(
      if step.Enqueue? || step.EnqueueDirect? then s.enqueued + [step.e] else s.enqueued,
      if step.Commit? && step.ok && s.enqueued != [] then s.committed + {|s.enqueued| - 1} else s.committed,
      if step.Enqueue? || step.EnqueueDirect? then true else if step.Commit? then false else s.uncommitted,
      if step.Enqueue? then s.inBuf + [step.e] else if step.ForwarderReceive? then s.inBuf[1..] else s.inBuf,
      s.forwarderUp && !step.ForwarderStop?,
      match step {
        case EnqueueDirect(e) => [e]
        case ForwarderReceive => [s.inBuf[0]]
        case ForwarderSend => []
        case ForwarderDirect => []
        case _ => s.forwarderHand
      },
      if step.ForwarderSend? then s.outBuf + s.forwarderHand
      else if step.HandlerReceive? then s.outBuf[1..]
      else s.outBuf,
      s.handlerUp && !step.HandlerStop?,
      match step {
        case ForwarderDirect => s.forwarderHand
        case HandlerReceive => [s.outBuf[0]]
        case HandlerSend => []
        case _ => s.handlerHand
      },
      if step.HandlerSend? then s.sent + s.handlerHand else s.sent)
  }

  /** The state a sequence of steps leads to from the start, if each is enabled in its turn. */
  function Run<T>(c: Caps, steps: seq<Step<T>>): Option<State<T>> {
    if steps == [] then Some(Start())
    else
      var before := Run(c, steps[..|steps| - 1]);
      if before.Some? && Enabled(c, before.value, steps[|steps| - 1])
      then Some(Next(c, before.value, steps[|steps| - 1]))
      else None
  }

  // ----- Conservation -----

  /** Everything between the consumer and the client, oldest first. */
  function InTransit<T>(s: State<T>): seq<T> {
    s.handlerHand + s.outBuf + s.forwarderHand + s.inBuf
  }

  ghost predicate Conserved<T>(c: Caps, s: State<T>) {
    && s.enqueued == s.sent + InTransit(s)
    && |s.handlerHand| <= 1 && |s.forwarderHand| <= 1
    && |s.inBuf| <= c.inCap && |s.outBuf| <= c.outCap
    && (forall i :: i in s.committed ==> i < |s.enqueued|)
  }

  lemma EnqueueConserves<T>(c: Caps, s: State<T>, step: Step<T>)
    requires Conserved(c, s) && Enabled(c, s, step) && (step.Enqueue? || step.EnqueueDirect?)
    ensures Conserved(c, Next(c, s, step))
  {
    var s' := Next(c, s, step);
    assert InTransit(s') == InTransit(s) + [step.e];
    Associate(s.sent, InTransit(s), [step.e]);
  }

  lemma ForwarderConserves<T>(c: Caps, s: State<T>, step: Step<T>)
    requires Conserved(c, s) && Enabled(c, s, step)
    requires step.ForwarderReceive? || step.ForwarderSend? || step.ForwarderDirect?
    ensures Conserved(c, Next(c, s, step))
  {
    if step.ForwarderReceive? { assert s.inBuf == [s.inBuf[0]] + s.inBuf[1..]; }
    assert InTransit(Next(c, s, step)) == InTransit(s);
  }

  lemma HandlerConserves<T>(c: Caps, s: State<T>, step: Step<T>)
    requires Conserved(c, s) && Enabled(c, s, step) && (step.HandlerReceive? || step.HandlerSend?)
    ensures Conserved(c, Next(c, s, step))
  {
    var s' := Next(c, s, step);
    if step.HandlerReceive? {
      assert s.outBuf == [s.outBuf[0]] + s.outBuf[1..];
      assert InTransit(s') == InTransit(s);
    } else {
      assert InTransit(s) == s.handlerHand + InTransit(s');
      Associate(s.sent, s.handlerHand, InTransit(s'));
    }
  }

  lemma StepConserves<T>(c: Caps, s: State<T>, step: Step<T>)
    requires Conserved(c, s) && Enabled(c, s, step)
    ensures Conserved(c, Next(c, s, step))
  {
    match step
    case Enqueue(_) => EnqueueConserves(c, s, step);
    case EnqueueDirect(_) => EnqueueConserves(c, s, step);
    case ForwarderReceive => ForwarderConserves(c, s, step);
    case ForwarderSend => ForwarderConserves(c, s, step);
    case ForwarderDirect => ForwarderConserves(c, s, step);
    case HandlerReceive => HandlerConserves(c, s, step);
    case HandlerSend => HandlerConserves(c, s, step);
    case _ => assert InTransit(Next(c, s, step)) == InTransit(s);
  }

  lemma {:induction false} RunConserves<T>(c: Caps, steps: seq<Step<T>>)
    requires Run(c, steps).Some?
    ensures Conserved(c, Run(c, steps).value)
  {
    if steps != [] {
      RunConserves(c, steps[..|steps| - 1]);
      StepConserves(c, Run(c, steps[..|steps| - 1]).value, steps[|steps| - 1]);
    }
  }

  /** Positions committed to the broker that the client has not received. */
  function AtRisk<T>(s: State<T>): set<nat> {
    set i | i in s.committed && i >= |s.sent|
  }

  /**
   In every run the client has received a prefix of what the consumer enqueued, what is missing is
   exactly what is in transit, and at most `inCap + outCap + 2` committed messages are still unsent.
   */
  lemma ClientHasPrefix<T>(c: Caps, steps: seq<Step<T>>)
    requires Run(c, steps).Some?
    ensures var s := Run(c, steps).value;
            && s.sent <= s.enqueued && s.enqueued[|s.sent|..] == InTransit(s)
            && |AtRisk(s)| <= |s.enqueued| - |s.sent| <= c.inCap + c.outCap + 2
  {
    RunConserves(c, steps);
    var s := Run(c, steps).value;
    Interval(|s.sent|, |s.enqueued|, AtRisk(s));
  }

  lemma {:induction false} Interval(lo: nat, hi: nat, s: set<nat>)
    requires lo <= hi && forall i :: i in s ==> lo <= i < hi
    ensures |s| <= hi - lo
  {
    if lo == hi {
      assert s == {};
    } else {
      Interval(lo, hi - 1, s - {hi - 1});
    }
  }

  // ----- Messages move on -----

  /** How many messages the handler has sent. */
  function Sends<T>(steps: seq<Step<T>>): nat {
    if steps == [] then 0 else Sends(steps[..|steps| - 1]) + (if steps[|steps| - 1].HandlerSend? then 1 else 0)
  }

  /** In every run each send of the handler is one message more at the client. */
  lemma {:induction false} EverySendArrives<T>(c: Caps, steps: seq<Step<T>>)
    requires Run(c, steps).Some?
    ensures |Run(c, steps).value.sent| == Sends(steps)
  {
    if steps != [] {
      EverySendArrives(c, steps[..|steps| - 1]);
      RunConserves(c, steps[..|steps| - 1]);
    }
  }

  /** Steps of the forwarder and the handler, none of which stops it. */
  predicate Moving<T>(step: Step<T>) {
    step.ForwarderReceive? || step.ForwarderSend? || step.ForwarderDirect? || step.HandlerReceive? || step.HandlerSend?
  }

  ghost predicate AllMoving<T>(steps: seq<Step<T>>) {
    forall i :: 0 <= i < |steps| ==> Moving(steps[i])
  }

  ghost predicate BothUp<T>(c: Caps, s: State<T>) {
    Conserved(c, s) && s.forwarderUp && s.handlerUp
  }

  /** Forwarder and handler can bring everything to the client. */
  ghost predicate CanDrain<T(!new)>(c: Caps, s: State<T>) {
    exists steps, s' :: AllMoving(steps) && Leads(c, s, steps, s') && Drained(s, s')
  }

  /** Everything enqueued is with the client, nothing more was enqueued, and every stage is empty. */
  predicate Drained<T(==)>(s: State<T>, s': State<T>) {
    s'.sent == s'.enqueued == s.enqueued && s'.handlerHand == s'.outBuf == s'.forwarderHand == s'.inBuf == []
  }

  lemma DrainBack<T(!new)>(c: Caps, s: State<T>, step: Step<T>)
    requires Moving(step) && Enabled(c, s, step) && CanDrain(c, Next(c, s, step))
    ensures CanDrain(c, s)
  {
    var steps, s' :| AllMoving(steps) && Leads(c, Next(c, s, step), steps, s') && Drained(Next(c, s, step), s');
    Precede(c, s, step, steps, s');
    assert AllMoving([step] + steps) && Drained(s, s');
  }

  lemma DrainedAlready<T(!new)>(c: Caps, s: State<T>)
    requires Conserved(c, s) && InTransit(s) == []
    ensures CanDrain(c, s)
  {
    var none: seq<Step<T>> := [];
    assert s.sent + InTransit(s) == s.sent;
    assert AllMoving(none) && Leads(c, s, none, s) && Drained(s, s);
  }

  /** How far the messages in transit still have to go. */
  function Distance<T>(s: State<T>): nat {
    |s.handlerHand| + 2 * |s.outBuf| + 3 * |s.forwarderHand| + 4 * |s.inBuf|
  }

  /** Some component can move a message on. */
  lemma SomeMove<T>(c: Caps, s: State<T>) returns (step: Step<T>)
    requires BothUp(c, s) && InTransit(s) != []
    ensures Moving(step) && Enabled(c, s, step)
    ensures BothUp(c, Next(c, s, step)) && Distance(Next(c, s, step)) < Distance(s)
  {
    if s.handlerHand != [] {
      step := HandlerSend;
    } else if s.outBuf != [] {
      step := HandlerReceive;
    } else if s.forwarderHand != [] {
      step := ForwarderDirect;
    } else {
      step := ForwarderReceive;
    }
    StepConserves(c, s, step);
  }

  lemma {:induction false} Drains<T(!new)>(c: Caps, s: State<T>)
    requires BothUp(c, s)
    ensures CanDrain(c, s)
    decreases Distance(s)
  {
    if InTransit(s) == [] {
      DrainedAlready(c, s);
    } else {
      var step := SomeMove(c, s);
      Drains(c, Next(c, s, step));
      DrainBack(c, s, step);
    }
  }

  /**
   Every stage moves messages on: from every reachable state whose forwarder and handler are up, their
   steps alone bring everything to the client.
   */
  lemma EverythingCanArrive<T(!new)>(c: Caps, steps: seq<Step<T>>)
    requires Run(c, steps).Some? && Run(c, steps).value.forwarderUp && Run(c, steps).value.handlerUp
    ensures CanDrain(c, Run(c, steps).value)
  {
    RunConserves(c, steps);
    Drains(c, Run(c, steps).value);
  }

  /** What a component does, or is handed, only while it is up. */
  predicate OfForwarder<T>(step: Step<T>) {
    step.EnqueueDirect? || step.ForwarderReceive? || step.ForwarderSend? || step.ForwarderDirect? || step.ForwarderStop?
  }

  predicate OfHandler<T>(step: Step<T>) {
    step.ForwarderDirect? || step.HandlerReceive? || step.HandlerSend? || step.HandlerStop?
  }

  lemma {:induction false} StaysDown<T>(c: Caps, steps: seq<Step<T>>, j: nat, k: nat)
    requires Run(c, steps).Some? && j < k <= |steps|
    ensures Run(c, steps[..k]).Some?
    ensures steps[j].ForwarderStop? ==> !Run(c, steps[..k]).value.forwarderUp
    ensures steps[j].HandlerStop? ==> !Run(c, steps[..k]).value.handlerUp
    decreases |steps|, |steps| - k
  {
    if k < |steps| {
      StaysDown(c, steps[..|steps| - 1], j, k);
      assert steps[..|steps| - 1][..k] == steps[..k];
    } else {
      assert steps[..k] == steps;
      if j < |steps| - 1 {
        StaysDown(c, steps[..|steps| - 1], j, |steps| - 1);
        assert steps[..|steps| - 1][..|steps| - 1] == steps[..|steps| - 1];
      }
    }
  }

  /** A stopped component does nothing more, so after the handler's stop the client receives nothing. */
  lemma NothingAfterStop<T>(c: Caps, steps: seq<Step<T>>, j: nat, k: nat)
    requires Run(c, steps).Some? && j < k < |steps|
    ensures steps[j].ForwarderStop? ==> !OfForwarder(steps[k])
    ensures steps[j].HandlerStop? ==> !OfHandler(steps[k])
  {
    StaysDown(c, steps, j, k);
    StaysDown(c, steps, j, k + 1);
    assert steps[..k + 1][..k] == steps[..k] && steps[..k + 1][k] == steps[k];
  }

  // ----- The bound is reached -----

  function Copies<T>(e: T, n: nat): (r: seq<T>)
    ensures |r| == n
  {
    if n == 0 then [] else Copies(e, n - 1) + [e]
  }

  function Below(n: nat): (r: set<nat>)
    ensures |r| == n && forall i: nat :: i in r <==> i < n
  {
    if n == 0 then {} else Below(n - 1) + {n - 1}
  }

  function AtMost(n: int, cap: nat): nat {
    if n < 0 then 0 else if n > cap then cap else n
  }

  /** `n` committed and unsent messages, filling the stages from the client's end. */
  function Filled<T>(c: Caps, e: T, n: nat): State<T> {
    State(Copies(e, n), Below(n), false,
          Copies(e, AtMost(n - c.outCap - 2, c.inCap)), true, Copies(e, AtMost(n - c.outCap - 1, 1)),
          Copies(e, AtMost(n - 1, c.outCap)), true, Copies(e, AtMost(n, 1)), [])
  }

  lemma Push<T>(e: T, n: nat)
    ensures Copies(e, n) + [e] == Copies(e, n + 1)
    ensures Copies(e, 0) == [] && Copies(e, 1) == [e]
  {
  }

  /** The steps that take in one more message and move it as far as it goes. */
  function Filling<T>(c: Caps, e: T, n: nat): seq<Step<T>> {
    if n == 0 then [EnqueueDirect(e), ForwarderDirect, Commit(true)]
    else if n <= c.outCap then [EnqueueDirect(e), ForwarderSend, Commit(true)]
    else if n == c.outCap + 1 then [EnqueueDirect(e), Commit(true)]
    else [Enqueue(e), Commit(true)]
  }

  lemma RunPush<T>(c: Caps, steps: seq<Step<T>>, step: Step<T>, s: State<T>)
    requires Run(c, steps) == Some(s) && Enabled(c, s, step)
    ensures Run(c, steps + [step]) == Some(Next(c, s, step))
  {
    assert (steps + [step])[..|steps|] == steps;
  }

  /** The steps are enabled in turn from `s` and end in `s'`. */
  ghost predicate Leads<T>(c: Caps, s: State<T>, steps: seq<Step<T>>, s': State<T>)
    decreases steps
  {
    if steps == [] then s == s'
    else Enabled(c, s, steps[0]) && Leads(c, Next(c, s, steps[0]), steps[1..], s')
  }

  lemma {:induction false} RunLeads<T>(c: Caps, steps: seq<Step<T>>, more: seq<Step<T>>, s': State<T>)
    requires Run(c, steps).Some? && Leads(c, Run(c, steps).value, more, s')
    ensures Run(c, steps + more) == Some(s')
    decreases more
  {
    if more == [] {
      assert steps + more == steps;
    } else {
      RunPush(c, steps, more[0], Run(c, steps).value);
      RunLeads(c, steps + [more[0]], more[1..], s');
      Associate(steps, [more[0]], more[1..]);
      assert [more[0]] + more[1..] == more;
    }
  }

  /** The stages' contents in `Filled`, spelled out for the range in which the message goes by hand. */
  lemma FilledDirect<T>(c: Caps, e: T, n: nat)
    requires n <= c.outCap + 1
    ensures var s := Filled(c, e, n);
            && s.inBuf == [] && s.forwarderHand == [] && s.sent == [] && !s.uncommitted
            && s.handlerHand == (if n == 0 then [] else [e])
            && s.outBuf == (if n == 0 then [] else Copies(e, n - 1))
  {
    Push(e, 0);
  }

  lemma Precede<T>(c: Caps, s: State<T>, step: Step<T>, steps: seq<Step<T>>, s': State<T>)
    requires Enabled(c, s, step) && Leads(c, Next(c, s, step), steps, s')
    ensures Leads(c, s, [step] + steps, s')
  {
    assert ([step] + steps)[1..] == steps;
  }

  /** The commit that ends each filling. */
  lemma CommitLeads<T>(c: Caps, s: State<T>, s': State<T>)
    requires s.uncommitted && s' == Next(c, s, Commit(true))
    ensures Leads(c, s, [Commit(true)], s')
  {
    var commit: Step<T>, none: seq<Step<T>> := Commit(true), [];
    assert Leads(c, s', none, s');
    Precede(c, s, commit, none, s');
    assert [commit] + none == [commit];
  }

  lemma FillHandler<T>(c: Caps, e: T)
    ensures Leads(c, Filled(c, e, 0), Filling(c, e, 0), Filled(c, e, 1))
  {
    FilledDirect(c, e, 0);
    FilledDirect(c, e, 1);
    Push(e, 0);
    var s := Filled(c, e, 0);
    var s1 := Next(c, s, EnqueueDirect(e));
    var s2 := Next(c, s1, ForwarderDirect);
    assert Next(c, s2, Commit(true)).committed == Below(1);
    CommitLeads(c, s2, Filled(c, e, 1));
    Precede(c, s1, ForwarderDirect, [Commit(true)], Filled(c, e, 1));
    Precede(c, s, EnqueueDirect(e), [ForwarderDirect, Commit(true)], Filled(c, e, 1));
  }

  /** One more message goes by hand to the output buffer, and is committed. */
  lemma FilledOut<T>(c: Caps, e: T, n: nat)
    requires 1 <= n <= c.outCap
    ensures var s1 := Next(c, Filled(c, e, n), EnqueueDirect(e));
            && Enabled(c, Filled(c, e, n), EnqueueDirect(e)) && Enabled(c, s1, ForwarderSend)
            && Next(c, s1, ForwarderSend).uncommitted
            && Next(c, Next(c, s1, ForwarderSend), Commit(true)) == Filled(c, e, n + 1)
  {
    FilledDirect(c, e, n);
    FilledDirect(c, e, n + 1);
    Push(e, n);
    Push(e, n - 1);
    OneBelow(n);
  }

  lemma FillOut<T>(c: Caps, e: T, n: nat)
    requires 1 <= n <= c.outCap
    ensures Leads(c, Filled(c, e, n), Filling(c, e, n), Filled(c, e, n + 1))
  {
    FilledOut(c, e, n);
    var s1 := Next(c, Filled(c, e, n), EnqueueDirect(e));
    CommitLeads(c, Next(c, s1, ForwarderSend), Filled(c, e, n + 1));
    Precede(c, s1, ForwarderSend, [Commit(true)], Filled(c, e, n + 1));
    Precede(c, Filled(c, e, n), EnqueueDirect(e), [ForwarderSend, Commit(true)], Filled(c, e, n + 1));
  }

  lemma FillForwarder<T>(c: Caps, e: T, n: nat)
    requires n == c.outCap + 1
    ensures Leads(c, Filled(c, e, n), Filling(c, e, n), Filled(c, e, n + 1))
  {
    FilledDirect(c, e, n);
    Push(e, n);
    Push(e, 0);
    var s1 := Next(c, Filled(c, e, n), EnqueueDirect(e));
    assert Next(c, s1, Commit(true)).committed == Below(n + 1);
    CommitLeads(c, s1, Filled(c, e, n + 1));
    Precede(c, Filled(c, e, n), EnqueueDirect(e), [Commit(true)], Filled(c, e, n + 1));
  }

  /** The stages' contents in `Filled`, spelled out for the range in which messages queue up. */
  lemma FilledQueue<T>(c: Caps, e: T, n: nat)
    requires c.outCap + 2 <= n <= c.inCap + c.outCap + 2
    ensures var s := Filled(c, e, n);
            && s.inBuf == Copies(e, n - c.outCap - 2) && s.forwarderHand == Copies(e, 1)
            && s.outBuf == Copies(e, c.outCap) && s.handlerHand == Copies(e, 1)
  {
  }

  lemma OneBelow(n: nat)
    ensures Below(n) + {n} == Below(n + 1)
  {
  }

  /** One more message waits in the input buffer, and is committed. */
  lemma FilledIn<T>(c: Caps, e: T, n: nat)
    requires c.outCap + 2 <= n < c.inCap + c.outCap + 2
    ensures var s1 := Next(c, Filled(c, e, n), Enqueue(e));
            && Enabled(c, Filled(c, e, n), Enqueue(e)) && s1.uncommitted
            && Next(c, s1, Commit(true)) == Filled(c, e, n + 1)
  {
    FilledQueue(c, e, n);
    FilledQueue(c, e, n + 1);
    Push(e, n);
    Push(e, n - c.outCap - 2);
    OneBelow(n);
  }

  lemma FillIn<T>(c: Caps, e: T, n: nat)
    requires c.outCap + 2 <= n < c.inCap + c.outCap + 2
    ensures Leads(c, Filled(c, e, n), Filling(c, e, n), Filled(c, e, n + 1))
  {
    FilledIn(c, e, n);
    CommitLeads(c, Next(c, Filled(c, e, n), Enqueue(e)), Filled(c, e, n + 1));
    Precede(c, Filled(c, e, n), Enqueue(e), [Commit(true)], Filled(c, e, n + 1));
  }

  lemma FillOne<T>(c: Caps, e: T, n: nat)
    requires n < c.inCap + c.outCap + 2
    ensures Leads(c, Filled(c, e, n), Filling(c, e, n), Filled(c, e, n + 1))
  {
    if n == 0 {
      FillHandler(c, e);
    } else if n <= c.outCap {
      FillOut(c, e, n);
    } else if n == c.outCap + 1 {
      FillForwarder(c, e, n);
    } else {
      FillIn(c, e, n);
    }
  }

  lemma FillNone<T>(c: Caps, e: T)
    ensures Run(c, []) == Some(Filled(c, e, 0))
  {
    FilledDirect(c, e, 0);
  }

  /** For every number up to the bound some run holds that many committed messages unsent. */
  lemma {:induction false} FillReached<T>(c: Caps, e: T, n: nat) returns (steps: seq<Step<T>>)
    requires n <= c.inCap + c.outCap + 2
    ensures Run(c, steps) == Some(Filled(c, e, n))
  {
    if n == 0 {
      FillNone(c, e);
      steps := [];
    } else {
      var before := FillReached(c, e, n - 1);
      FillMore(c, e, n - 1, before);
      steps := before + Filling(c, e, n - 1);
    }
  }

  lemma FillMore<T>(c: Caps, e: T, n: nat, before: seq<Step<T>>)
    requires n < c.inCap + c.outCap + 2 && Run(c, before) == Some(Filled(c, e, n))
    ensures Run(c, before + Filling(c, e, n)) == Some(Filled(c, e, n + 1))
  {
    FillOne(c, e, n);
    RunLeads(c, before, Filling(c, e, n), Filled(c, e, n + 1));
  }

  lemma AllAtRisk<T>(s: State<T>, n: nat)
    requires s.sent == [] && s.committed == Below(n)
    ensures |AtRisk(s)| == n
  {
    assert AtRisk(s) == Below(n);
  }

  /** The bound on committed and unsent messages is tight: some run reaches it. */
  lemma BoundIsReached<T>(c: Caps, e: T) returns (steps: seq<Step<T>>)
    ensures Run(c, steps).Some? && |AtRisk(Run(c, steps).value)| == c.inCap + c.outCap + 2
  {
    var total := c.inCap + c.outCap + 2;
    steps := FillReached(c, e, total);
    AllAtRisk(Filled(c, e, total), total);
  }
}
