/** The consumer and the subscription pipeline put together, from the partition log to the client. */
module Delivery {
  import Consumer
  import Pipeline

  /** What the consumer has put into the broker channel in its current session. */
  function Delivered(s: Consumer.State): seq<(int, nat)> {
    if s.session <= |s.enqueued| then s.enqueued[s.session..] else []
  }

  /** A record the broker will not hand out again: not before the group's start and below the commit. */
  ghost predicate Committed(log: Consumer.Log, s: Consumer.State, p: int, o: nat) {
    p in s.committed && p in s.origin && s.origin[p] <= o < s.committed[p] && log(p, o).Some?
  }

  /** Where a committed record can be. */
  ghost predicate Placed(log: Consumer.Log, s: Consumer.State, p: int, o: nat, sent: seq<(int, nat)>, transit: seq<(int, nat)>) {
    || log(p, o).None? || log(p, o).value.Garbled?
    || (p, o) in s.rejected
    || (p, o) in s.enqueued[..|s.enqueued| - |Delivered(s)|]
    || (p, o) in sent
    || (p, o) in transit
    || (p, o) in s.givenUp
  }

  /**
   End to end. The pipeline of a session is fed with exactly what the consumer enqueues in it. Then
   in every state of both: the client's messages are a prefix of the session's deliveries, with
   strictly increasing offsets per partition; and every record below a committed offset was
   undecodable, rejected, enqueued in an earlier session, received by the client, is one of at most
   `inCap + outCap + 2` messages in transit, or lost its send to cancellation before a later
   subscription of the same process committed past it.
   */
  lemma CommittedIsAccountedFor(log: Consumer.Log, steps: seq<Consumer.Step>, s: Consumer.State,
                                caps: Pipeline.Caps, moves: seq<Pipeline.Step<(int, nat)>>)
    requires Consumer.Leads(log, Consumer.Initial, steps, s)
    requires Pipeline.Run(caps, moves).Some? && Pipeline.Run(caps, moves).value.enqueued == Delivered(s)
    ensures var q := Pipeline.Run(caps, moves).value;
            && q.sent <= Delivered(s)
            && |Pipeline.InTransit(q)| <= caps.inCap + caps.outCap + 2
            && (forall i, j :: 0 <= i < j < |q.sent| && q.sent[i].0 == q.sent[j].0 ==> q.sent[i].1 < q.sent[j].1)
            && (forall p, o: nat :: Committed(log, s, p, o) ==> Placed(log, s, p, o, q.sent, Pipeline.InTransit(q)))
            && ((forall k :: 0 <= k < |steps| ==> !steps[k].GiveUp?) ==> s.givenUp == {})
  {
    var q := Pipeline.Run(caps, moves).value;
    Pipeline.ClientHasPrefix(caps, moves);
    SentInOrder(log, steps, s, q.sent);
    forall p, o: nat | Committed(log, s, p, o) ensures Placed(log, s, p, o, q.sent, Pipeline.InTransit(q)) {
      Consumer.AtLeastOnce(log, steps, s, p, o);
      if (p, o) in s.enqueued { Located(s, (p, o), q.sent, Pipeline.InTransit(q)); }
    }
    if forall k :: 0 <= k < |steps| ==> !steps[k].GiveUp? {
      Consumer.NothingGivenUp(log, Consumer.Initial, steps, s);
    }
  }

  lemma SentInOrder(log: Consumer.Log, steps: seq<Consumer.Step>, s: Consumer.State, sent: seq<(int, nat)>)
    requires Consumer.Leads(log, Consumer.Initial, steps, s) && sent <= Delivered(s)
    ensures forall i, j :: 0 <= i < j < |sent| && sent[i].0 == sent[j].0 ==> sent[i].1 < sent[j].1
  {
    forall i, j | 0 <= i < j < |sent| && sent[i].0 == sent[j].0 ensures sent[i].1 < sent[j].1 {
      assert sent[i] == s.enqueued[s.session + i] && sent[j] == s.enqueued[s.session + j];
      Consumer.DeliveredInOrder(log, steps, s, s.session + i, s.session + j);
    }
  }

  /** An enqueued message is from an earlier session, received, or in transit. */
  lemma Located(s: Consumer.State, d: (int, nat), sent: seq<(int, nat)>, transit: seq<(int, nat)>)
    requires d in s.enqueued && sent <= Delivered(s) && Delivered(s)[|sent|..] == transit
    ensures d in s.enqueued[..|s.enqueued| - |Delivered(s)|] || d in sent || d in transit
  {
    assert s.enqueued == s.enqueued[..|s.enqueued| - |Delivered(s)|] + Delivered(s);
    assert Delivered(s) == sent + transit;
  }

  // ----- Over all sessions -----

  /** What each session enqueues when `steps` run from `s`; the first entry continues the session of `s`. */
  function PerSession(log: Consumer.Log, s: Consumer.State, steps: seq<Consumer.Step>): (r: seq<seq<(int, nat)>>)
    ensures |r| == 1 + Sessions(steps)
    decreases steps
  {
    if steps == [] then [[]]
    else
      var rest := PerSession(log, Consumer.Next(log, s, steps[0]), steps[1..]);
      if Consumer.Subscribes(steps[0]) then [[]] + rest
      else if steps[0].Enqueue? && s.pc.Sending? then [[(s.pc.p, s.pc.o)] + rest[0]] + rest[1..]
      else rest
  }

  /** How many subscriptions the steps make. */
  function Sessions(steps: seq<Consumer.Step>): nat {
    if steps == [] then 0 else (if Consumer.Subscribes(steps[0]) then 1 else 0) + Sessions(steps[1..])
  }

  ghost predicate InSome(d: (int, nat), parts: seq<seq<(int, nat)>>) {
    exists i :: 0 <= i < |parts| && d in parts[i]
  }

  lemma InFirst(d: (int, nat), first: seq<(int, nat)>, rest: seq<seq<(int, nat)>>)
    ensures InSome(d, [first] + rest) <==> d in first || InSome(d, rest)
  {
    if InSome(d, [first] + rest) {
      var i :| 0 <= i < |[first] + rest| && d in ([first] + rest)[i];
      if i > 0 { assert d in rest[i - 1]; }
    }
    if d in first { assert d in ([first] + rest)[0]; }
    if InSome(d, rest) {
      var i :| 0 <= i < |rest| && d in rest[i];
      assert d in ([first] + rest)[i + 1];
    }
  }

  /** Everything enqueued was enqueued before or by one of the sessions. */
  lemma {:induction false} EnqueuedInSession(log: Consumer.Log, s: Consumer.State, steps: seq<Consumer.Step>,
                                             s': Consumer.State, d: (int, nat))
    requires Consumer.Leads(log, s, steps, s') && d in s'.enqueued
    ensures d in s.enqueued || InSome(d, PerSession(log, s, steps))
    decreases steps
  {
    if steps != [] {
      var s1 := Consumer.Next(log, s, steps[0]);
      var rest := PerSession(log, s1, steps[1..]);
      EnqueuedInSession(log, s1, steps[1..], s', d);
      if Consumer.Subscribes(steps[0]) {
        InFirst(d, [], rest);
      } else if steps[0].Enqueue? && s.pc.Sending? {
        assert rest == [rest[0]] + rest[1..];
        InFirst(d, rest[0], rest[1..]);
        InFirst(d, [(s.pc.p, s.pc.o)] + rest[0], rest[1..]);
      }
    }
  }

  /** With no subscription among the steps, the one share is what they enqueued; else the last is the current session's. */
  ghost predicate LastShareIs(parts: seq<seq<(int, nat)>>, sessions: nat, s: Consumer.State, s': Consumer.State) {
    && |parts| == 1 + sessions && s.enqueued <= s'.enqueued
    && (sessions == 0 ==> parts[0] == s'.enqueued[|s.enqueued|..] && s'.session == s.session)
    && (sessions > 0 ==> s'.session <= |s'.enqueued| && parts[sessions] == s'.enqueued[s'.session..])
  }

  lemma ShareSubscribed(rest: seq<seq<(int, nat)>>, sessions: nat, s: Consumer.State, s1: Consumer.State, s': Consumer.State)
    requires LastShareIs(rest, sessions, s1, s') && s1.enqueued == s.enqueued && s1.session == |s.enqueued|
    ensures LastShareIs([[]] + rest, 1 + sessions, s, s')
  {
  }

  lemma ShareEnqueued(rest: seq<seq<(int, nat)>>, sessions: nat, s: Consumer.State, s1: Consumer.State, s': Consumer.State, d: (int, nat))
    requires LastShareIs(rest, sessions, s1, s') && s1.enqueued == s.enqueued + [d] && s1.session == s.session
    ensures LastShareIs([[d] + rest[0]] + rest[1..], sessions, s, s')
  {
    if sessions == 0 { assert [d] + s'.enqueued[|s.enqueued| + 1..] == s'.enqueued[|s.enqueued|..]; }
  }

  /** The last session's share is what the current session has delivered. */
  lemma {:induction false} LastShare(log: Consumer.Log, s: Consumer.State, steps: seq<Consumer.Step>, s': Consumer.State)
    requires Consumer.Leads(log, s, steps, s')
    ensures LastShareIs(PerSession(log, s, steps), Sessions(steps), s, s')
    decreases steps
  {
    if steps != [] {
      var s1, sessions := Consumer.Next(log, s, steps[0]), Sessions(steps[1..]);
      var rest := PerSession(log, s1, steps[1..]);
      LastShare(log, s1, steps[1..], s');
      if Consumer.Subscribes(steps[0]) {
        ShareSubscribed(rest, sessions, s, s1, s');
      } else if steps[0].Enqueue? && s.pc.Sending? {
        ShareEnqueued(rest, sessions, s, s1, s', (s.pc.p, s.pc.o));
      }
    }
  }

  /**
   What a client of a session receives is what that session's subscription enqueued, in order, and
   every piece of it is a message that the filter in force at its decision let pass.
   */
  lemma ClientGetsMessages(log: Consumer.Log, steps: seq<Consumer.Step>, s: Consumer.State,
                           caps: Pipeline.Caps, moves: seq<Pipeline.Step<(int, nat)>>)
    requires Consumer.Leads(log, Consumer.Initial, steps, s) && Sessions(steps) > 0
    requires Pipeline.Run(caps, moves).Some? && Pipeline.Run(caps, moves).value.enqueued == Delivered(s)
    ensures var q := Pipeline.Run(caps, moves).value;
            && q.enqueued == PerSession(log, Consumer.Initial, steps)[Sessions(steps)] && q.sent <= q.enqueued
            && forall d :: d in q.sent ==> Consumer.LetPass(log, Consumer.Initial, steps, d.0, d.1)
  {
    var q := Pipeline.Run(caps, moves).value;
    LastShare(log, Consumer.Initial, steps, s);
    Pipeline.ClientHasPrefix(caps, moves);
    forall d | d in q.sent ensures Consumer.LetPass(log, Consumer.Initial, steps, d.0, d.1) {
      assert d in Delivered(s) && d in s.enqueued;
      Consumer.OnlyAcceptedDelivered(log, steps, s, d.0, d.1);
    }
  }

  /** One pipeline per session, each fed with what its session enqueued. */
  ghost predicate Fed(caps: Pipeline.Caps, pipes: seq<seq<Pipeline.Step<(int, nat)>>>, parts: seq<seq<(int, nat)>>) {
    && |pipes| == |parts|
    && forall i :: 0 <= i < |pipes| ==>
         Pipeline.Run(caps, pipes[i]).Some? && Pipeline.Run(caps, pipes[i]).value.enqueued == parts[i]
  }

  /** Some client has received the message. */
  ghost predicate Received(caps: Pipeline.Caps, pipes: seq<seq<Pipeline.Step<(int, nat)>>>, d: (int, nat)) {
    exists i :: 0 <= i < |pipes| && Pipeline.Run(caps, pipes[i]).Some? && d in Pipeline.Run(caps, pipes[i]).value.sent
  }

  function Elements(s: seq<(int, nat)>): (r: set<(int, nat)>)
    ensures |r| <= |s| && forall d :: d in r <==> d in s
  {
    if s == [] then {} else Elements(s[..|s| - 1]) + {s[|s| - 1]}
  }

  /** What is still in transit in one pipeline. */
  ghost function Held(caps: Pipeline.Caps, pipe: seq<Pipeline.Step<(int, nat)>>): set<(int, nat)> {
    var q := Pipeline.Run(caps, pipe);
    if q.Some? then Elements(Pipeline.InTransit(q.value)) else {}
  }

  /** What is still in transit in some pipeline. */
  ghost function Undelivered(caps: Pipeline.Caps, pipes: seq<seq<Pipeline.Step<(int, nat)>>>): set<(int, nat)> {
    if pipes == [] then {} else Undelivered(caps, pipes[..|pipes| - 1]) + Held(caps, pipes[|pipes| - 1])
  }

  lemma HeldBound(caps: Pipeline.Caps, pipe: seq<Pipeline.Step<(int, nat)>>)
    ensures |Held(caps, pipe)| <= caps.inCap + caps.outCap + 2
  {
    if Pipeline.Run(caps, pipe).Some? { Pipeline.ClientHasPrefix(caps, pipe); }
  }

  lemma UnionSize<T>(a: set<T>, b: set<T>)
    ensures |a + b| <= |a| + |b|
  {
    assert a + b == a + (b - a);
    Subset(b - a, b);
  }

  /** What a pipeline can hold. */
  function Room(caps: Pipeline.Caps): nat {
    caps.inCap + caps.outCap + 2
  }

  lemma {:induction false} UndeliveredBound(caps: Pipeline.Caps, pipes: seq<seq<Pipeline.Step<(int, nat)>>>, room: nat)
    requires room == Room(caps)
    ensures |Undelivered(caps, pipes)| <= |pipes| * room
  {
    if pipes != [] {
      var front, last := pipes[..|pipes| - 1], pipes[|pipes| - 1];
      UndeliveredBound(caps, front, room);
      HeldBound(caps, last);
      UnionSize(Undelivered(caps, front), Held(caps, last));
      OneMore(|front|, room);
    }
  }

  lemma OneMore(n: nat, x: nat)
    ensures (n + 1) * x == n * x + x
  {
  }

  lemma {:induction false} InTransitIsUndelivered(caps: Pipeline.Caps, pipes: seq<seq<Pipeline.Step<(int, nat)>>>, i: nat, d: (int, nat))
    requires i < |pipes| && Pipeline.Run(caps, pipes[i]).Some? && d in Pipeline.InTransit(Pipeline.Run(caps, pipes[i]).value)
    ensures d in Undelivered(caps, pipes)
    decreases |pipes|
  {
    if i < |pipes| - 1 { InTransitIsUndelivered(caps, pipes[..|pipes| - 1], i, d); }
  }

  lemma EnqueuedIsPlaced(caps: Pipeline.Caps, pipes: seq<seq<Pipeline.Step<(int, nat)>>>, parts: seq<seq<(int, nat)>>, d: (int, nat))
    requires Fed(caps, pipes, parts) && InSome(d, parts)
    ensures Received(caps, pipes, d) || d in Undelivered(caps, pipes)
  {
    var i :| 0 <= i < |parts| && d in parts[i];
    var q := Pipeline.Run(caps, pipes[i]).value;
    Pipeline.ClientHasPrefix(caps, pipes[i]);
    assert q.enqueued == q.sent + Pipeline.InTransit(q);
    if d !in q.sent { InTransitIsUndelivered(caps, pipes, i, d); }
  }

  /** Committed, meant for a client, and received by none. */
  ghost predicate Missing(log: Consumer.Log, s: Consumer.State, caps: Pipeline.Caps,
                          pipes: seq<seq<Pipeline.Step<(int, nat)>>>, d: (int, nat)) {
    && Committed(log, s, d.0, d.1) && log(d.0, d.1).value.Message? && d !in s.rejected
    && !Received(caps, pipes, d)
  }

  lemma MissingIsPlaced(log: Consumer.Log, steps: seq<Consumer.Step>, s: Consumer.State,
                        caps: Pipeline.Caps, pipes: seq<seq<Pipeline.Step<(int, nat)>>>, d: (int, nat))
    requires Consumer.Leads(log, Consumer.Initial, steps, s)
    requires Fed(caps, pipes, PerSession(log, Consumer.Initial, steps)[1..]) && Missing(log, s, caps, pipes, d)
    ensures d in s.givenUp || d in Undelivered(caps, pipes)
  {
    Consumer.AtLeastOnce(log, steps, s, d.0, d.1);
    if d in s.enqueued {
      var parts := PerSession(log, Consumer.Initial, steps);
      EnqueuedInSession(log, Consumer.Initial, steps, s, d);
      NothingUnsubscribed(log, Consumer.Initial, steps);
      assert parts == [parts[0]] + parts[1..];
      InFirst(d, parts[0], parts[1..]);
      EnqueuedIsPlaced(caps, pipes, parts[1..], d);
    }
  }

  /** Nothing is enqueued before the first subscription. */
  lemma {:induction false} NothingUnsubscribed(log: Consumer.Log, s: Consumer.State, steps: seq<Consumer.Step>)
    requires s.pc.Stopped? && exists s' :: Consumer.Leads(log, s, steps, s')
    ensures PerSession(log, s, steps)[0] == []
    decreases steps
  {
    if steps != [] && !Consumer.Subscribes(steps[0]) {
      var s' :| Consumer.Leads(log, s, steps, s');
      assert Consumer.Leads(log, Consumer.Next(log, s, steps[0]), steps[1..], s');
      NothingUnsubscribed(log, Consumer.Next(log, s, steps[0]), steps[1..]);
    }
  }

  /**
   Over all sessions together: of the records below the committed offsets that were meant for a
   client, at most `inCap + outCap + 2` per subscription, and those whose send was cancelled, have
   reached no client.
   */
  lemma MissingBound(log: Consumer.Log, steps: seq<Consumer.Step>, s: Consumer.State,
                     caps: Pipeline.Caps, pipes: seq<seq<Pipeline.Step<(int, nat)>>>, missing: set<(int, nat)>)
    requires Consumer.Leads(log, Consumer.Initial, steps, s)
    requires Fed(caps, pipes, PerSession(log, Consumer.Initial, steps)[1..])
    requires forall d :: d in missing ==> Missing(log, s, caps, pipes, d)
    ensures |missing| <= Sessions(steps) * Room(caps) + |s.givenUp|
  {
    AllPlaced(log, steps, s, caps, pipes, missing);
    assert |pipes| == Sessions(steps);
    PlacedSize(missing, s.givenUp, Undelivered(caps, pipes));
    UndeliveredBound(caps, pipes, Room(caps));
  }

  lemma AllPlaced(log: Consumer.Log, steps: seq<Consumer.Step>, s: Consumer.State,
                  caps: Pipeline.Caps, pipes: seq<seq<Pipeline.Step<(int, nat)>>>, missing: set<(int, nat)>)
    requires Consumer.Leads(log, Consumer.Initial, steps, s)
    requires Fed(caps, pipes, PerSession(log, Consumer.Initial, steps)[1..])
    requires forall d :: d in missing ==> Missing(log, s, caps, pipes, d)
    ensures missing <= s.givenUp + Undelivered(caps, pipes)
  {
    forall d | d in missing ensures d in s.givenUp + Undelivered(caps, pipes) {
      MissingIsPlaced(log, steps, s, caps, pipes, d);
    }
  }

  lemma PlacedSize<T>(missing: set<T>, a: set<T>, b: set<T>)
    requires missing <= a + b
    ensures |missing| <= |a| + |b|
  {
    Subset(missing, a + b);
    UnionSize(a, b);
  }

  lemma {:induction false} Subset<T>(a: set<T>, b: set<T>)
    requires a <= b
    ensures |a| <= |b|
  {
    if a != {} {
      var x :| x in a;
      Subset(a - {x}, b - {x});
    }
  }
}
