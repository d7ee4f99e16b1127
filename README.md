# A verified model of the bus event-delivery engine

The bus is an in-process publish/subscribe engine written in Go. A
publisher stages an event in a store, and the store returns the event's ID.
The bus then queues a *delivery* task for the event, bound to the handler
registered for the event's topic; an unsubscribed topic gets a no-op handler
that always succeeds. A dispatch loop pops tasks in FIFO order and runs them.
A delivery that succeeds resets the event's `ErrCount` and queues an
*acknowledge* task. That task deletes the event from the store. Each phase
that fails adds one to `ErrCount` and queues a fresh task of the same phase.
A fresh delivery task looks up the handler again. There is no retry limit.

The project models:

- `events.dfy` (module `Events`): the event record, the error value, the
  opaque payload and the task tag.
- `options.dfy` (module `Options`): the `With*` settings and `genOpts`.
  The settings are applied in order and missing components get defaults.
- `bus.dfy` (module `Bus`): the bus as a value, `State`, holding the
  subscription table, the FIFO of tasks and the event records. It has one
  function per operation (`Subscribe`, `Publish`, `Next` for one turn of the
  dispatch loop, `Run` for many turns). The invariant `Inv` is stated
  against a per-event history of attempts. The lemmas prove that every
  operation keeps it and describe each transition, and the eventual-removal
  lemmas relate many turns. The class `EventBus` is the mutable bus. Each of
  its methods (`Sub`, `PubWithData`, `Pub`, `Step`) is proved to change its
  fields exactly as the matching function says.
- `storage.dfy` (module `Storage`): `memStorage` as a class over
  `map<int, Event>`, and the package-level ID counter as a shared
  `IdSequence` object with 64-bit wrap-around.

Three things outside the model enter as arguments:

- what the handler returns (`Outcome.handlerOk`);
- what the store's `Delete` returns (`Outcome.deleteOk`);
- what the store's `Sink` returns (`SinkReply`).

This matches the source, where the store is a pluggable interface. The
default store, `MemStorage`, never fails: its `Delete` always returns a nil
error. This is the `deleteOk` hypothesis of the eventual-removal lemmas.

Two behaviours of the code are easy to misread; the model follows the code:

- The handler is looked up when a delivery task is *built*, as
  bus.go:141-167 does. That happens at publication and at each retry, not
  when the task is dispatched. So a handler registered after an event was
  published to an unsubscribed topic never sees that event: its queued task
  already holds the no-op (`Bus.QueuedTaskKeepsItsHandler`). It does see a
  later retry of an event whose delivery is failing
  (`Bus.LateSubscriptionHonoured`).
- The ID counter is one package-level variable shared by all stores
  (storage.go:8-10, 47-49), not one counter per store. `MemStorage` holds a
  reference to a shared `IdSequence`.

## Model

| member | source | states |
|---|---|---|
| Options.GenOpts | bus.go:80-95 | For each component (executor, storage, scheduler), the last setting of that kind wins. A nil value, or no setting at all, gives the default: a pooled executor of size 5, the in-memory store, the FIFO scheduler. The result has no nil component. |
| Bus.SubscribeLastWins | bus.go:131-135 | After `Sub(t, h)` the table maps `t` to `h`, replacing any earlier handler. No other topic's entry changes, the queue and events are untouched, and a second `Sub` on the same topic overrides the first. |
| Bus.SubscribeKeepsInv | bus.go:131-135 | `Sub` keeps the bus invariant. |
| Bus.PublishOutcome | bus.go:119-129 | If `Sink` fails, `PubWithData` returns that same error and changes nothing. Otherwise it returns nil, the new record carries the ID `Sink` returned and has `ErrCount` 0, and exactly one delivery task for it is queued, bound to the handler currently registered for the topic (the no-op if none). |
| Bus.PublishKeepsInv | bus.go:119-129 | A publication keeps the invariant. A new event starts in the delivery phase with an empty history and exactly one queued unit. |
| Bus.Next | bus.go:141-183 | One turn of the dispatch loop keeps every queued unit pointing at an existing event. It keeps "at most one queued unit per event", never lengthens the queue, and never changes the table or the number of events. |
| Bus.Run | bus.go:185-187 | Any number of turns keeps every queued unit pointing at an existing event. |
| Bus.DeliverySucceeds | bus.go:151-156 | A delivery whose handler succeeds (always so for the no-op handler) sets `ErrCount` to 0 and queues exactly one acknowledge task for the same event. |
| Bus.DeliveryFails | bus.go:158-160 | A delivery whose handler fails adds exactly 1 to `ErrCount` and queues exactly one new delivery task. That task is bound to the handler registered for the topic at that moment. |
| Bus.AckOutcome | bus.go:169-182 | An acknowledge task whose `Delete` succeeds queues nothing, which is terminal. One whose `Delete` fails adds 1 to `ErrCount` and queues exactly one acknowledge task for the same event. |
| Bus.LateSubscriptionHonoured | bus.go:145-160 | A handler subscribed while an event's delivery is failing is the handler of that event's retry. |
| Bus.QueuedTaskKeepsItsHandler | bus.go:145-156 | A delivery task built with the no-op handler stays bound to it after a later `Sub`. It succeeds and moves the event to its acknowledge phase. |
| Bus.RunKeepsInv | bus.go:141-187 | Any number of turns of the dispatch loop keeps the invariant, each event's history growing by the attempts made for it. So an event that has no queued unit after many turns has been acknowledged successfully, and `ErrCount` still counts the failures of its current phase. |
| Bus.NextKeepsInv | bus.go:141-183 | Every turn keeps the invariant, with the attempt recorded in the event's history. At most one unit per event is queued. An event's phase (delivering, acknowledging, removed) is the one its history gives. An event has no queued unit only after a successful acknowledge. `ErrCount` equals the number of failures of the current phase. |
| Bus.EmptyInv | bus.go:97-101 | The new bus, with an empty table, queue and event list, satisfies the invariant; the constructor relies on it. |
| Bus.DeliveryAttemptHistory | bus.go:151-160 | When a delivery is attempted, every earlier attempt for that event was a failed delivery, and `ErrCount` is their number. So a handler that failed K times is being called for the (K+1)-th time, with `ErrCount` = K. |
| Bus.NextShifts | scheduler.go:24-31 | The dispatch queue is FIFO: each turn moves a queued task one place towards the head. |
| Bus.RemovedStaysRemoved | bus.go:169-176 | Once an event has no queued unit, no later turn gives it one. |
| Bus.AckRemoves | bus.go:169-182 | With a store whose `Delete` never fails, an acknowledge task at queue position p removes its event within p + 1 turns. |
| Bus.NoOpDeliveryRemoves | bus.go:145-156 | With a store whose `Delete` never fails, a delivery task bound to the no-op handler at position p removes its event within p + n + 1 turns, where n is the queue length, whatever other handlers return. |
| Bus.UnsubscribedEventRemoved | bus.go:119-156 | An event published to a topic with no handler counts as delivered. With a store whose `Delete` never fails, it is removed within 2n + 2 turns, where n is the queue length before publication. |
| Bus.EventBus.constructor | bus.go:97-110 | `New`: options filled as `genOpts` does, an empty table, queue and event list, and the invariant holds. |
| Bus.EventBus.GenEventTask | bus.go:141-167 | `genEventTask` builds the delivery task that `EventTask` specifies: bound to the topic's handler, or to the no-op when the topic is absent. |
| Bus.EventBus.Sub | bus.go:131-135 | The new state is `Subscribe` of the old one, and the invariant is kept. |
| Bus.EventBus.PubWithData | bus.go:119-129 | The new state and the returned error are those of `Publish`. The ID is assigned after `Sink` returns, and the invariant is kept. |
| Bus.EventBus.Pub | bus.go:112-117 | Behaves exactly like `PubWithData(topic, nil)` and returns the same error. |
| Bus.EventBus.Step | bus.go:141-183 | Running the head task moves the state to `Next` of the old state, records the attempt, and keeps the invariant. |
| Storage.Inc64 | storage.go:47-49 | The counter increment is 64-bit two's-complement addition of 1: the result is an int64 congruent to x + 1 modulo 2^64. |
| Storage.IdSequence.constructor | storage.go:8-10 | The counter starts at 0 with no ID issued. |
| Storage.IdSequence.Next | storage.go:47-49 | `nextID` returns the incremented counter. Until the counter wraps, that value is the old one plus 1 and larger than every ID issued before, so IDs are unique and strictly increasing. |
| Storage.MemStorage.constructor | storage.go:24-28 | `newMemStorage` starts with an empty map. |
| Storage.MemStorage.Sink | storage.go:30-34 | `Sink` returns the next counter value with a nil error and stores the event under it. Exactly one key is added and every other entry is unchanged. Until the counter wraps, the key is fresh and larger than every earlier ID. |
| Storage.MemStorage.Delete | storage.go:36-41 | After `Delete(id)`, `id` is absent and the result is nil. No other key changes, and deleting an absent key leaves the map as it was. |
| Storage.MemStorage.Fetch | storage.go:43-45 | `Fetch` returns no events and a nil error and changes nothing. |
| Storage.SinkThenDelete | storage_test.go:8-27 | What `Sink` stored is found under the returned ID, and it is gone after `Delete` of that ID. |

## Left out

- The worker pool (executor.go): it exists only for concurrency (goroutines, a buffered channel, a wait group, cancellation). The model runs one task per `Step`, atomically.
- The scheduler (scheduler.go) wraps an external queue library that is not part of this model. It is modelled only by its contract, a FIFO `seq` that tasks are appended to and `Step` pops from. An empty queue blocks, which the model shows as a step that changes nothing. `Close` and the abandoning of queued tasks at shutdown are not modelled.
- `Shutdown`, the background `go b.schedule()` in `New`, the read/write lock of the table and the store's mutex: lifecycle and concurrency. The model is single-threaded, so the unlocked write in `Sink` cannot race.
- `context.Context`, and what a handler does with the payload: a handler is an opaque identity, and its result is the `handlerOk` argument of `Step`.
- The arbitrary `Option` closures a caller could write: only the three `With*` constructors are modelled.
- The bus is not wired to `MemStorage`: it takes `Sink`'s and `Delete`'s answers as arguments, because the store is pluggable. The guarantee of `MemStorage.Delete` (always nil) is what the `deleteOk` hypotheses of the removal lemmas assume.
- Storage.MemStorage.Sink: the Go map holds the `*Event` pointer, so the stored record later shows the ID and `ErrCount` the bus writes into it. The model stores a value copy taken at `Sink` time.
- Bus.Next: a handler is a non-nil opaque identity that either returns nil or an error. A handler that panics, or a nil handler given to `Sub` (stored at bus.go:134, found at bus.go:145 so the no-op is not used, and called at bus.go:152), crashes the process because the worker loop has no `recover` (executor.go:57-66); that abort is not modelled.
- Bus.Next: `ErrCount` is a natural number. Its int64 wrap-around after 2^63 - 1 failures in one phase is not modelled.
- Storage.IdSequence.Next: once the counter has wrapped, past 2^63 - 1 IDs, the model promises only the int64 increment. It no longer promises freshness or order, and neither does the source.
- `Fetch` is a stub in the source, and recovering staged events at startup is not wired into the bus; there is nothing more to model.
