/** The default staging store of storage.go: a map from event ID to event,
    with IDs drawn from a process-wide 64-bit counter. */
module Storage {
  import opened Events

  const MinInt64: int := -0x8000_0000_0000_0000
  const MaxInt64: int := 0x7FFF_FFFF_FFFF_FFFF

  predicate IsInt64(x: int) {
    MinInt64 <= x <= MaxInt64
  }

  /** 64-bit two's complement `x + 1`, as `atomic.AddInt64(&x, 1)` computes
      it: the successor, wrapping from the largest value to the smallest. */
  function Inc64(x: int): (r: int)
    requires IsInt64(x)
    ensures IsInt64(r)
    ensures (r - (x + 1)) % 0x1_0000_0000_0000_0000 == 0
  {
    if x == MaxInt64 then MinInt64 else x + 1
  }

  /** The package-level counter `seq` behind `nextID`. It is one object
      shared by every store. `issued` holds every ID handed out so far;
      `wrapped` records that the counter has passed its largest value. */
  class IdSequence {
    var value: int
    ghost var issued: set<int>
    ghost var wrapped: bool

    ghost predicate Valid()
      reads this
    {
      && IsInt64(value)
      && (!wrapped ==> 0 <= value && forall k | k in issued :: 0 < k <= value)
    }

    /** The zero value of the Go variable. */
    constructor ()
      ensures Valid() && value == 0 && issued == {} && !wrapped
    {
      value := 0;
      issued := {};
      wrapped := false;
    }

    /** `nextID`: increments the counter and returns its new value. Before
        the counter wraps, that value is larger than every ID issued. */
    method Next() returns (id: int)
      requires Valid()
      modifies this
      ensures Valid()
      ensures id == value == Inc64(old(value))
      ensures issued == old(issued) + {id}
      ensures wrapped == (old(wrapped) || old(value) == MaxInt64)
      ensures !wrapped ==> id == old(value) + 1 && forall k | k in old(issued) :: k < id
    {
      wrapped := wrapped || value == MaxInt64;
      value := Inc64(value);
      id := value;
      issued := issued + {id};
    }
  }

  /** `memStorage`: the staging map, drawing IDs from `ids`. */
  class MemStorage {
    var m: map<int, Event>
    const ids: IdSequence

    /** Until the counter wraps, every stored key is an issued ID. */
    ghost predicate Valid()
      reads this, ids
    {
      && ids.Valid()
      && (!ids.wrapped ==> forall k | k in m :: k in ids.issued)
    }

    /** `newMemStorage`: an empty map over the shared counter. */
    constructor (ids: IdSequence)
      requires ids.Valid()
      ensures Valid() && m == map[] && this.ids == ids
    {
      m := map[];
      this.ids := ids;
    }

    /** `Sink`: stores `event` under the next ID and returns that ID with a
        nil error. Exactly one key is added (or, once the counter has
        wrapped, overwritten); no other entry changes. Before the counter
        wraps the key is fresh and larger than every earlier ID. */
    method Sink(topic: Topic, event: Event) returns (id: int, err: Option<Error>)
      requires Valid()
      modifies this, ids
      ensures Valid()
      ensures err == None
      ensures id == ids.value == Inc64(old(ids.value))
      ensures m == old(m)[id := event]
      ensures id in m && m[id] == event
      ensures forall k | k in old(m) && k != id :: k in m && m[k] == old(m)[k]
      ensures m.Keys == old(m).Keys + {id}
      ensures ids.issued == old(ids.issued) + {id}
      ensures ids.wrapped == (old(ids.wrapped) || old(ids.value) == MaxInt64)
      ensures !ids.wrapped ==> id !in old(m) && id == old(ids.value) + 1
      ensures !ids.wrapped ==> forall k | k in old(ids.issued) :: k < id
    {
      id := ids.Next();
      m := m[id := event];
      err := None;
    }

    /** `Delete`: removes `id` with a nil error; an absent `id` leaves the
        map as it was. No other key is touched. */
    method Delete(id: int) returns (err: Option<Error>)
      requires Valid()
      modifies this
      ensures Valid()
      ensures err == None
      ensures id !in m
      ensures m == old(m) - {id}
      ensures forall k | k in old(m) && k != id :: k in m && m[k] == old(m)[k]
      ensures id !in old(m) ==> m == old(m)
    {
      m := m - {id};
      err := None;
    }

    /** `Fetch`: a stub that returns nothing and a nil error, changing
        nothing. */
    method Fetch() returns (events: seq<Event>, err: Option<Error>)
      ensures events == [] && err == None
    {
      events := [];
      err := None;
    }
  }

  /** The round trip of the store's test: what `Sink` stored is found under
      the returned ID, and after `Delete` of that ID it is gone. */
  method SinkThenDelete(s: MemStorage, topic: Topic, event: Event) returns (stored: Event, present: bool)
    requires s.Valid()
    modifies s, s.ids
    ensures s.Valid()
    ensures stored == event && !present
  {
    var id, err := s.Sink(topic, event);
    stored := s.m[id];
    err := s.Delete(id);
    present := id in s.m;
  }
}
