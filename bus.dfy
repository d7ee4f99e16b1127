/** The bus of bus.go: the topic-to-handler table, the per-event delivery
    state machine (deliver, then acknowledge by deleting from the store,
    each retried until it succeeds) and the FIFO of units of work.

    The first half specifies the bus as a value, `State`, with one function
    per operation and the lemmas about them; the class `EventBus` at the end
    is the mutable bus, each method proved to move its fields exactly as the
    corresponding function does. */
module Bus {
  import opened Events
  import Options

  /** The identity of a handler function passed to `Sub`. */
  type Handler = nat

  /** A reference to an `Event` record (the Go pointer `*Event`): the index
      of the record in allocation order. */
  type Ref = nat

  /** The handler a delivery task closes over: the one registered for the
      topic when the task was built, or the no-op that always succeeds. */
  datatype Resolved = NoOp | Registered(handler: Handler)

  /** An `EventTask`: the task built by `genEventTask` (`OpType` `DoOp`,
      carrying the handler it captured) or by `genDeleteEventTask`
      (`OpType` `DeleteOp`). */
  datatype Unit = Deliver(ev: Ref, handler: Resolved) | Ack(ev: Ref)

  /** What the calls made by one task return: the handler (for a delivery
      task whose handler is not the no-op) and `Storage.Delete` (for an
      acknowledge task). `true` is a nil error. */
  datatype Outcome = Outcome(handlerOk: bool, deleteOk: bool)

  /** What `Storage.Sink` returns to `PubWithData`. */
  datatype SinkReply = Sunk(id: int) | SinkFailed(err: Error)

  /** The bus as a value: the subscription table, the scheduler's FIFO (head
      first) and every event record allocated so far. */
  datatype State = State(handlers: map<Topic, Handler>, queue: seq<Unit>, events: seq<Event>)

  const Empty := State(map[], [], [])

  /** Every queued unit refers to an allocated event. */
  predicate WellFormed(s: State) {
    forall i | 0 <= i < |s.queue| :: s.queue[i].ev < |s.events|
  }

  /** No event has two queued units. */
  predicate Distinct(q: seq<Unit>) {
    forall i, j | 0 <= i < j < |q| :: q[i].ev != q[j].ev
  }

  // ---------------------------------------------------------------------
  // Operations

  /** The handler lookup of `genEventTask`, with its no-op default. */
  function Resolve(handlers: map<Topic, Handler>, topic: Topic): Resolved {
    if topic in handlers then Registered(handlers[topic]) else NoOp
  }

  /** `genEventTask`: a delivery task for event `r`, bound to the handler
      registered for its topic at this moment. */
  function EventTask(s: State, r: Ref): Unit
    requires r < |s.events|
  {
    Deliver(r, Resolve(s.handlers, s.events[r].topic))
  }

  /** `Sub`: the last registration for a topic wins. */
  function Subscribe(s: State, topic: Topic, h: Handler): State {
    s.(handlers := s.handlers[topic := h])
  }

  /** `PubWithData`, given what the store's `Sink` replies: the store's
      error is returned with nothing changed; otherwise a new event record
      carrying the returned ID is allocated and one delivery task for it is
      queued. */
  function Publish(s: State, topic: Topic, data: Payload, reply: SinkReply): (State, Option<Error>) {
    match reply
    case SinkFailed(e) => (s, Some(e))
    case Sunk(id) =>
      var s' := s.(events := s.events + [Event(id, topic, data, 0)]);
      (s'.(queue := s.queue + [EventTask(s', |s.events|)]), None)
  }

  /** One turn of the dispatch loop: pop the head unit and run its task
      with the given outcomes. An empty queue blocks, which changes nothing. */
  function Next(s: State, o: Outcome): (t: State)
    requires WellFormed(s)
    ensures WellFormed(t)
    ensures Distinct(s.queue) ==> Distinct(t.queue)
    ensures |t.queue| <= |s.queue|
    ensures |t.events| == |s.events| && t.handlers == s.handlers
  {
    if s.queue == [] then s
    else
      var u, rest := s.queue[0], s.queue[1..];
      var e := s.events[u.ev];
      match u
      case Deliver(r, h) =>
        if h == NoOp || o.handlerOk then
          s.(queue := rest + [Ack(r)], events := s.events[r := e.(errCount := 0)])
        else
          var s' := s.(events := s.events[r := e.(errCount := e.errCount + 1)]);
          s'.(queue := rest + [EventTask(s', r)])
      case Ack(r) =>
        if o.deleteOk then s.(queue := rest)
        else s.(queue := rest + [Ack(r)], events := s.events[r := e.(errCount := e.errCount + 1)])
  }

  /** The dispatch loop run for `|outs|` turns. */
  function Run(s: State, outs: seq<Outcome>): (t: State)
    requires WellFormed(s)
    ensures WellFormed(t)
    decreases |outs|
  {
    if outs == [] then s else Run(Next(s, outs[0]), outs[1..])
  }

  // ---------------------------------------------------------------------
  // The per-event life cycle

  /** One attempt of one phase, as recorded in an event's history. */
  datatype Attempt = Delivered | DeliveryFailed | Acked | AckFailed

  /** The three logical states of an event. */
  datatype Phase = Delivering | Acknowledging | Removed

  /** The phase an event is in after the attempts `l`. */
  function PhaseOf(l: seq<Attempt>): Phase {
    if Acked in l then Removed else if Delivered in l then Acknowledging else Delivering
  }

  /** Which attempts the state machine allows in a phase. */
  predicate Allowed(p: Phase, a: Attempt) {
    match p
    case Delivering => a == Delivered || a == DeliveryFailed
    case Acknowledging => a == Acked || a == AckFailed
    case Removed => false
  }

  /** A history the state machine can produce: every attempt is allowed in
      the phase the attempts before it left the event in. */
  predicate Legal(l: seq<Attempt>) {
    forall i | 0 <= i < |l| :: Allowed(PhaseOf(l[..i]), l[i])
  }

  /** The failures of the phase the event is in: failed deliveries before
      the delivery succeeded, failed deletions after it. */
  function PhaseFailures(l: seq<Attempt>): nat {
    if Delivered in l then multiset(l)[AckFailed] else multiset(l)[DeliveryFailed]
  }

  /** The phase the queue shows for event `r`: that of its first queued
      unit, or removed when none is queued. */
  function QueuedPhase(q: seq<Unit>, r: Ref): Phase {
    if q == [] then Removed
    else if q[0].ev == r then (if q[0].Deliver? then Delivering else Acknowledging)
    else QueuedPhase(q[1..], r)
  }

  /** The attempt a task makes when run with outcome `o`. */
  function AttemptOf(u: Unit, o: Outcome): Attempt {
    match u
    case Deliver(_, h) => if h == NoOp || o.handlerOk then Delivered else DeliveryFailed
    case Ack(_) => if o.deleteOk then Acked else AckFailed
  }

  /** The histories after one turn of the dispatch loop. */
  function Record(s: State, log: seq<seq<Attempt>>, o: Outcome): seq<seq<Attempt>>
    requires WellFormed(s) && |log| == |s.events|
  {
    if s.queue == [] then log
    else var r := s.queue[0].ev; log[r := log[r] + [AttemptOf(s.queue[0], o)]]
  }

  /** The histories after `|outs|` turns of the dispatch loop. */
  function RunLog(s: State, log: seq<seq<Attempt>>, outs: seq<Outcome>): seq<seq<Attempt>>
    requires WellFormed(s) && |log| == |s.events|
    decreases |outs|
  {
    if outs == [] then log else RunLog(Next(s, outs[0]), Record(s, log, outs[0]), outs[1..])
  }

  /** The bus invariant, given each event's history `log`: at most one unit
      per event is queued; each event is in the phase its history says, and
      the queue shows it (in particular an event no unit refers to has been
      acknowledged successfully); `ErrCount` is exactly the number of
      failures of the current phase. */
  predicate Inv(s: State, log: seq<seq<Attempt>>) {
    && WellFormed(s)
    && Distinct(s.queue)
    && |log| == |s.events|
    && forall r | 0 <= r < |s.events| ::
         && Legal(log[r])
         && s.events[r].errCount == PhaseFailures(log[r])
         && QueuedPhase(s.queue, r) == PhaseOf(log[r])
  }

  // ---------------------------------------------------------------------
  // Lemmas about the queue and the histories

  lemma {:induction false} QueuedPhaseAbsent(q: seq<Unit>, r: Ref)
    requires forall i | 0 <= i < |q| :: q[i].ev != r
    ensures QueuedPhase(q, r) == Removed
  {
    if q != [] {
      QueuedPhaseAbsent(q[1..], r);
    }
  }

  lemma {:induction false} QueuedPhaseAppend(q: seq<Unit>, u: Unit, r: Ref)
    ensures QueuedPhase(q + [u], r) ==
      if QueuedPhase(q, r) != Removed then QueuedPhase(q, r)
      else if u.ev == r then (if u.Deliver? then Delivering else Acknowledging)
      else Removed
  {
    if q != [] {
      assert (q + [u])[1..] == q[1..] + [u];
      QueuedPhaseAppend(q[1..], u, r);
    }
  }

  /** A queued unit for `r` means the queue shows `r` in that unit's phase. */
  lemma {:induction false} QueuedPhaseAt(q: seq<Unit>, p: nat, r: Ref)
    requires Distinct(q) && p < |q| && q[p].ev == r
    ensures QueuedPhase(q, r) == if q[p].Deliver? then Delivering else Acknowledging
  {
    if p > 0 {
      QueuedPhaseAt(q[1..], p - 1, r);
    }
  }

  lemma LegalExtend(l: seq<Attempt>, a: Attempt)
    requires Legal(l) && Allowed(PhaseOf(l), a)
    ensures Legal(l + [a])
  {
    forall i | 0 <= i < |l| + 1
      ensures Allowed(PhaseOf((l + [a])[..i]), (l + [a])[i])
    {
      if i < |l| {
        assert (l + [a])[..i] == l[..i];
      } else {
        assert (l + [a])[..i] == l;
      }
    }
  }

  /** While an event is being delivered, all its attempts so far are failed
      deliveries. */
  lemma DeliveringHistory(l: seq<Attempt>)
    requires Legal(l) && PhaseOf(l) == Delivering
    ensures forall i | 0 <= i < |l| :: l[i] == DeliveryFailed
  {
  }

  /** While an event is being acknowledged, no acknowledgement succeeded. */
  lemma AcknowledgingHistory(l: seq<Attempt>)
    requires Legal(l) && PhaseOf(l) == Acknowledging
    ensures multiset(l + [Acked])[AckFailed] == multiset(l)[AckFailed]
    ensures Acked !in l
  {
  }

  lemma {:induction false} CountAllSame(l: seq<Attempt>, a: Attempt)
    requires forall i | 0 <= i < |l| :: l[i] == a
    ensures multiset(l)[a] == |l|
  {
    if l != [] {
      assert l == l[..|l| - 1] + [a];
      CountAllSame(l[..|l| - 1], a);
    }
  }

  // ---------------------------------------------------------------------
  // The invariant is kept by every operation

  lemma EmptyInv()
    ensures Inv(Empty, [])
  {
  }

  lemma SubscribeKeepsInv(s: State, log: seq<seq<Attempt>>, topic: Topic, h: Handler)
    requires Inv(s, log)
    ensures Inv(Subscribe(s, topic, h), log)
  {
  }

  /** A new event starts being delivered, with an empty history. */
  lemma PublishKeepsInv(s: State, log: seq<seq<Attempt>>, topic: Topic, data: Payload, reply: SinkReply)
    requires Inv(s, log)
    ensures reply.SinkFailed? ==> Inv(Publish(s, topic, data, reply).0, log)
    ensures reply.Sunk? ==> Inv(Publish(s, topic, data, reply).0, log + [[]])
  {
    if reply.Sunk? {
      var t := Publish(s, topic, data, reply).0;
      var n := |s.events|;
      var log' := log + [[]];
      forall r | 0 <= r < |t.events|
        ensures Legal(log'[r]) && t.events[r].errCount == PhaseFailures(log'[r])
        ensures QueuedPhase(t.queue, r) == PhaseOf(log'[r])
      {
        QueuedPhaseAppend(s.queue, t.queue[|s.queue|], r);
        if r == n {
          QueuedPhaseAbsent(s.queue, r);
        }
      }
    }
  }

  /** The dispatch loop keeps the invariant, recording each attempt. */
  lemma NextKeepsInv(s: State, log: seq<seq<Attempt>>, o: Outcome)
    requires Inv(s, log)
    ensures Inv(Next(s, o), Record(s, log, o))
  {
    if s.queue != [] {
      var u, rest := s.queue[0], s.queue[1..];
      var r := u.ev;
      var t, log' := Next(s, o), Record(s, log, o);
      var a := AttemptOf(u, o);
      QueuedPhaseAt(s.queue, 0, r);
      QueuedPhaseAbsent(rest, r);
      assert Allowed(PhaseOf(log[r]), a);
      LegalExtend(log[r], a);
      if u.Deliver? {
        DeliveringHistory(log[r]);
        assert AckFailed !in log[r];
      } else {
        AcknowledgingHistory(log[r]);
      }
      forall r' | 0 <= r' < |t.events|
        ensures QueuedPhase(t.queue, r') == PhaseOf(log'[r'])
      {
        if |t.queue| == |rest| {
          assert t.queue == rest;
        } else {
          QueuedPhaseAppend(rest, t.queue[|rest|], r');
          assert t.queue == rest + [t.queue[|rest|]];
        }
      }
    }
  }

  /** Any number of turns keeps the invariant, each event's history growing
      by the attempts made for it. So an event with no queued unit after
      many turns was acknowledged successfully. */
  lemma {:induction false} RunKeepsInv(s: State, log: seq<seq<Attempt>>, outs: seq<Outcome>)
    requires Inv(s, log)
    ensures Inv(Run(s, outs), RunLog(s, log, outs))
    decreases |outs|
  {
    if outs != [] {
      NextKeepsInv(s, log, outs[0]);
      RunKeepsInv(Next(s, outs[0]), Record(s, log, outs[0]), outs[1..]);
    }
  }

  // ---------------------------------------------------------------------
  // What an attempt does

  /** A publication either fails with the store's error and changes
      nothing, or succeeds with a nil error: the new record carries the ID
      the store returned and exactly one delivery task for it is queued. */
  lemma PublishOutcome(s: State, topic: Topic, data: Payload, reply: SinkReply)
    ensures reply.SinkFailed? ==> Publish(s, topic, data, reply) == (s, Some(reply.err))
    ensures reply.Sunk? ==>
      var (t, err) := Publish(s, topic, data, reply);
      && err == None
      && t.handlers == s.handlers
      && t.events == s.events + [Event(reply.id, topic, data, 0)]
      && t.queue == s.queue + [Deliver(|s.events|, Resolve(s.handlers, topic))]
  {
  }

  /** After `Sub(topic, h)` the table maps `topic` to `h` whatever it held
      before, and no other topic's entry changes. */
  lemma SubscribeLastWins(s: State, topic: Topic, h: Handler, h': Handler)
    ensures Subscribe(s, topic, h).handlers[topic] == h
    ensures forall t | t != topic :: (t in s.handlers <==> t in Subscribe(s, topic, h).handlers)
    ensures forall t | t != topic && t in s.handlers :: Subscribe(s, topic, h).handlers[t] == s.handlers[t]
    ensures Subscribe(Subscribe(s, topic, h'), topic, h) == Subscribe(s, topic, h)
    ensures Subscribe(s, topic, h).queue == s.queue && Subscribe(s, topic, h).events == s.events
  {
  }

  /** A delivery that succeeds (always so with the no-op handler) zeroes
      `ErrCount` and queues exactly one acknowledge task for the event. */
  lemma DeliverySucceeds(s: State, o: Outcome)
    requires WellFormed(s) && s.queue != [] && s.queue[0].Deliver?
    requires s.queue[0].handler == NoOp || o.handlerOk
    ensures var r := s.queue[0].ev; var t := Next(s, o);
      && t.queue == s.queue[1..] + [Ack(r)]
      && t.events == s.events[r := s.events[r].(errCount := 0)]
  {
  }

  /** A delivery whose handler fails adds one to `ErrCount` and queues
      exactly one new delivery task, bound to the handler registered for
      the topic now, not to the one the failed task used. */
  lemma DeliveryFails(s: State, o: Outcome)
    requires WellFormed(s) && s.queue != [] && s.queue[0].Deliver?
    requires s.queue[0].handler != NoOp && !o.handlerOk
    ensures var r := s.queue[0].ev; var t := Next(s, o);
      && t.events == s.events[r := s.events[r].(errCount := s.events[r].errCount + 1)]
      && t.queue == s.queue[1..] + [Deliver(r, Resolve(s.handlers, s.events[r].topic))]
  {
  }

  /** An acknowledge task whose `Delete` succeeds queues nothing; one whose
      `Delete` fails adds one to `ErrCount` and queues itself again. */
  lemma AckOutcome(s: State, o: Outcome)
    requires WellFormed(s) && s.queue != [] && s.queue[0].Ack?
    ensures var r := s.queue[0].ev; var t := Next(s, o);
      && (o.deleteOk ==> t.queue == s.queue[1..] && t.events == s.events)
      && (!o.deleteOk ==> t.queue == s.queue[1..] + [Ack(r)] &&
                           t.events == s.events[r := s.events[r].(errCount := s.events[r].errCount + 1)])
  {
  }

  /** A handler registered after an event was published, while one of its
      delivery attempts was failing, is the handler of the retry. */
  lemma LateSubscriptionHonoured(s: State, h: Handler, o: Outcome)
    requires WellFormed(s) && s.queue != [] && s.queue[0].Deliver?
    requires s.queue[0].handler != NoOp && !o.handlerOk
    ensures var r := s.queue[0].ev;
      var t := Next(Subscribe(s, s.events[r].topic, h), o);
      t.queue[|t.queue| - 1] == Deliver(r, Registered(h))
  {
  }

  /** A subscription does not rebind a task already queued: a delivery task
      built while its topic had no handler still runs the no-op, so the
      event moves on to be acknowledged without reaching the new handler. */
  lemma QueuedTaskKeepsItsHandler(s: State, topic: Topic, h: Handler, o: Outcome)
    requires WellFormed(s) && s.queue != [] && s.queue[0] == Deliver(s.queue[0].ev, NoOp)
    ensures Next(Subscribe(s, topic, h), o).queue == s.queue[1..] + [Ack(s.queue[0].ev)]
  {
  }

  /** At the moment a delivery is attempted, the event's history holds only
      failed deliveries and `ErrCount` is their number: a handler that
      failed K times is being called for the (K+1)-th time, with
      `ErrCount` equal to K. */
  lemma DeliveryAttemptHistory(s: State, log: seq<seq<Attempt>>)
    requires Inv(s, log) && s.queue != [] && s.queue[0].Deliver?
    ensures var r := s.queue[0].ev;
      && (forall i | 0 <= i < |log[r]| :: log[r][i] == DeliveryFailed)
      && s.events[r].errCount == |log[r]|
  {
    var r := s.queue[0].ev;
    QueuedPhaseAt(s.queue, 0, r);
    DeliveringHistory(log[r]);
    CountAllSame(log[r], DeliveryFailed);
  }

  // ---------------------------------------------------------------------
  // Eventual removal

  /** An event with no queued unit never gets one again. */
  lemma {:induction false} RemovedStaysRemoved(s: State, outs: seq<Outcome>, r: Ref)
    requires WellFormed(s) && QueuedPhase(s.queue, r) == Removed
    ensures QueuedPhase(Run(s, outs).queue, r) == Removed
    decreases |outs|
  {
    if outs != [] {
      var t := Next(s, outs[0]);
      if s.queue != [] {
        var rest := s.queue[1..];
        assert s.queue[0].ev != r;
        if |t.queue| == |rest| {
          assert t.queue == rest;
        } else {
          assert t.queue == rest + [t.queue[|rest|]];
          QueuedPhaseAppend(rest, t.queue[|rest|], r);
        }
      }
      RemovedStaysRemoved(t, outs[1..], r);
    }
  }

  /** A unit behind the head moves one place forward per turn. */
  lemma NextShifts(s: State, o: Outcome, p: nat)
    requires WellFormed(s) && 0 < p < |s.queue|
    ensures 0 < |Next(s, o).queue| && Next(s, o).queue[p - 1] == s.queue[p]
  {
  }

  /** With a store whose `Delete` never fails, a queued acknowledge task at
      position `p` removes its event within `p + 1` turns. */
  lemma {:induction false} AckRemoves(s: State, outs: seq<Outcome>, p: nat)
    requires WellFormed(s) && Distinct(s.queue)
    requires p < |s.queue| && s.queue[p].Ack?
    requires forall i | 0 <= i < |outs| :: outs[i].deleteOk
    requires p < |outs|
    ensures QueuedPhase(Run(s, outs).queue, s.queue[p].ev) == Removed
    decreases p
  {
    var r := s.queue[p].ev;
    var t := Next(s, outs[0]);
    if p == 0 {
      assert t.queue == s.queue[1..];
      QueuedPhaseAbsent(t.queue, r);
      RemovedStaysRemoved(t, outs[1..], r);
    } else {
      NextShifts(s, outs[0], p);
      AckRemoves(t, outs[1..], p - 1);
    }
  }

  /** With a store whose `Delete` never fails, a delivery task bound to the
      no-op handler at position `p` removes its event within
      `p + |queue| + 1` turns, whatever the other handlers return. */
  lemma {:induction false} NoOpDeliveryRemoves(s: State, outs: seq<Outcome>, p: nat)
    requires WellFormed(s) && Distinct(s.queue)
    requires p < |s.queue| && s.queue[p] == Deliver(s.queue[p].ev, NoOp)
    requires forall i | 0 <= i < |outs| :: outs[i].deleteOk
    requires p + |s.queue| < |outs|
    ensures QueuedPhase(Run(s, outs).queue, s.queue[p].ev) == Removed
    decreases p
  {
    var r := s.queue[p].ev;
    var t := Next(s, outs[0]);
    if p == 0 {
      assert t.queue == s.queue[1..] + [Ack(r)];
      AckRemoves(t, outs[1..], |t.queue| - 1);
    } else {
      NextShifts(s, outs[0], p);
      NoOpDeliveryRemoves(t, outs[1..], p - 1);
    }
  }

  /** An event published to a topic nobody subscribed to is treated as
      delivered and, with a store whose `Delete` never fails, is removed
      within `2 * |queue| + 2` turns of the dispatch loop. */
  lemma {:induction false} UnsubscribedEventRemoved(s: State, topic: Topic, data: Payload, id: int, outs: seq<Outcome>)
    requires WellFormed(s) && Distinct(s.queue) && topic !in s.handlers
    requires forall i | 0 <= i < |outs| :: outs[i].deleteOk
    requires 2 * |s.queue| + 1 < |outs|
    ensures var t := Publish(s, topic, data, Sunk(id)).0;
      WellFormed(t) && QueuedPhase(Run(t, outs).queue, |s.events|) == Removed
  {
    var t := Publish(s, topic, data, Sunk(id)).0;
    assert t.queue[|s.queue|] == Deliver(|s.events|, NoOp);
    NoOpDeliveryRemoves(t, outs, |s.queue|);
  }

  // ---------------------------------------------------------------------
  // The mutable bus

  /** `bus` of bus.go. The store and the handlers are outside the model:
      their answers are the arguments of `PubWithData` and `Step`. */
  class EventBus {
    const option: Options.Config
    var handlers: map<Topic, Handler>
    var queue: seq<Unit>
    var events: seq<Event>
    /** The attempts made so far for each event. */
    ghost var log: seq<seq<Attempt>>

    ghost function Model(): State
      reads this
    {
      State(handlers, queue, events)
    }

    ghost predicate Valid()
      reads this
    {
      Inv(Model(), log)
    }

    /** `New`: options filled with their defaults, an empty table and an
        empty queue. */
    constructor (opts: seq<Options.Setting>)
      ensures Valid() && Model() == Empty && log == []
      ensures forall i | 0 <= i < |opts| && Options.LastOfKind(opts, i) :: Options.Applied(option, opts[i])
      ensures Options.Unset(opts, Options.ExecutorComponent) ==> option.executor == Options.PooledExecutor(Options.DefaultPoolSize)
      ensures Options.Unset(opts, Options.StorageComponent) ==> option.storage == Options.MemStore
      ensures Options.Unset(opts, Options.SchedulerComponent) ==> option.scheduler == Options.QueueScheduler
    {
      var c := Options.GenOpts(opts);
      option := c;
      handlers, queue, events := map[], [], [];
      log := [];
      EmptyInv();
    }

    /** `genEventTask`. */
    function GenEventTask(r: Ref): (u: Unit)
      reads this
      requires r < |events|
      ensures u == EventTask(Model(), r)
    {
      Deliver(r, Resolve(handlers, events[r].topic))
    }

    /** `Sub`. */
    method Sub(topic: Topic, h: Handler)
      requires Valid()
      modifies this
      ensures Valid() && Model() == Subscribe(old(Model()), topic, h) && log == old(log)
    {
      handlers := handlers[topic := h];
      SubscribeKeepsInv(old(Model()), log, topic, h);
    }

    /** `PubWithData`, where `reply` is what the store's `Sink` returns. */
    method PubWithData(topic: Topic, data: Payload, reply: SinkReply) returns (err: Option<Error>)
      requires Valid()
      modifies this
      ensures Valid()
      ensures (Model(), err) == Publish(old(Model()), topic, data, reply)
      ensures log == if reply.Sunk? then old(log) + [[]] else old(log)
    {
      PublishKeepsInv(Model(), log, topic, data, reply);
      match reply
      case SinkFailed(e) =>
        return Some(e);
      case Sunk(id) =>
        var r := |events|;
        events := events + [Event(0, topic, data, 0)];
        events := events[r := events[r].(id := id)];
        assert events == old(events) + [Event(id, topic, data, 0)];
        log := log + [[]];
        var task := GenEventTask(r);
        queue := queue + [task];
        return None;
    }

    /** `Pub`: `PubWithData` with a nil payload, returning its error. */
    method Pub(topic: Topic, reply: SinkReply) returns (err: Option<Error>)
      requires Valid()
      modifies this
      ensures Valid()
      ensures (Model(), err) == Publish(old(Model()), topic, Nil, reply)
      ensures log == if reply.Sunk? then old(log) + [[]] else old(log)
    {
      err := PubWithData(topic, Nil, reply);
      if err.Some? {
        return err;
      }
      return None;
    }

    /** One turn of the dispatch loop: pop the head task and run it, the
        handler or `Delete` it calls answering as `o` says. */
    method Step(o: Outcome)
      requires Valid()
      modifies this
      ensures Valid()
      ensures Model() == Next(old(Model()), o)
      ensures log == Record(old(Model()), old(log), o)
    {
      NextKeepsInv(Model(), log, o);
      if queue == [] {
        return;
      }
      var u := queue[0];
      queue := queue[1..];
      log := log[u.ev := log[u.ev] + [AttemptOf(u, o)]];
      match u
      case Deliver(r, h) =>
        if h == NoOp || o.handlerOk {
          events := events[r := events[r].(errCount := 0)];
          queue := queue + [Ack(r)];
        } else {
          events := events[r := events[r].(errCount := events[r].errCount + 1)];
          var task := GenEventTask(r);
          assert task == Deliver(r, Resolve(handlers, events[r].topic));
          queue := queue + [task];
        }
      case Ack(r) =>
        if !o.deleteOk {
          events := events[r := events[r].(errCount := events[r].errCount + 1)];
          queue := queue + [Ack(r)];
        }
    }
  }
}
