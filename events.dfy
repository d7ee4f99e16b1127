/** Types shared by the bus and its staging store: the event record, the
    error value a store may return, and the opaque payload. */
module Events {

  /** Go's `nil`-or-value: a `nil` error is `None`. */
  datatype Option<T> = None | Some(value: T)

  /** A non-nil Go `error`; only its identity matters to the bus. */
  datatype Error = Error(message: string)

  type Topic = string

  /** The `interface{}` payload of an event. `Nil` is what `Pub` publishes;
      any other payload is an opaque token the bus never inspects. */
  datatype Payload = Nil | Value(token: nat)

  /** `Event` of bus.go: `ErrCount` counts the failed attempts of the phase
      the event is in (delivery or acknowledgement). */
  datatype Event = Event(id: int, topic: Topic, data: Payload, errCount: nat)
}
