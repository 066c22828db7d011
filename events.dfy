/**
 * The event record and the process-wide, append-only event store
 * (models/event.go).
 */
module Events {
  import opened Wrappers

  /** A count of nanoseconds within one second. */
  type Nanos = n: nat | n < 1_000_000_000

  /** Where a `time.Time` keeps its location. A timestamp written with the
      designator "Z" decodes to UTC, which Go stores as a nil location; one
      written with a numeric offset (even "+00:00") decodes to a non-nil
      location. */
  datatype Location = UTC | Offset(seconds: int)

  /** A `time.Time`: the instant, as seconds and nanoseconds since
      January 1 of year 1, 00:00:00 UTC, and its location. */
  datatype Time = Time(sec: int, nsec: Nanos, loc: Location) {
    /** Whether this is the zero value of the struct, the test the
        `required` binding applies: the zero instant and a nil location.
        (The same instant with an offset location is not the zero value.) */
    predicate IsZeroValue() {
      sec == 0 && nsec == 0 && loc == UTC
    }
  }

  const ZeroTime: Time := Time(0, 0, UTC)

  /** Go's `int` on a 64-bit platform: a JSON number outside this range does
      not decode. */
  type Int64 = x: int | -0x8000_0000_0000_0000 <= x < 0x8000_0000_0000_0000

  /** One event. `id` and `userID` carry no binding tag; the four fields
      between them are tagged as required. */
  datatype Event = Event(
    id: Int64,
    name: string,
    description: string,
    location: string,
    dateTime: Time,
    userID: Int64)

  /** The zero value of the struct, which `var event models.Event` holds. */
  const ZeroEvent: Event := Event(0, "", "", "", ZeroTime, 0)

  /** The members a JSON request body supplies, member by member; a member
      that is absent (or null) is None. */
  datatype Fields = Fields(
    id: Option<Int64>,
    name: Option<string>,
    description: Option<string>,
    location: Option<string>,
    dateTime: Option<Time>,
    userID: Option<Int64>)

  /** The Event obtained by decoding `f` into the zero Event: every supplied
      member overwrites its field, every other field keeps its zero value. */
  function Decode(f: Fields): (e: Event)
    ensures e.id == (if f.id.Some? then f.id.value else 0)
    ensures e.userID == (if f.userID.Some? then f.userID.value else 0)
    ensures e.name == (if f.name.Some? then f.name.value else "")
    ensures e.description == (if f.description.Some? then f.description.value else "")
    ensures e.location == (if f.location.Some? then f.location.value else "")
    ensures e.dateTime == (if f.dateTime.Some? then f.dateTime.value else ZeroTime)
  {
    var e := ZeroEvent;
    var e := if f.id.Some? then e.(id := f.id.value) else e;
    var e := if f.name.Some? then e.(name := f.name.value) else e;
    var e := if f.description.Some? then e.(description := f.description.value) else e;
    var e := if f.location.Some? then e.(location := f.location.value) else e;
    var e := if f.dateTime.Some? then e.(dateTime := f.dateTime.value) else e;
    if f.userID.Some? then e.(userID := f.userID.value) else e
  }

  /** The `binding:"required"` rule: none of the four tagged fields holds
      its zero value. */
  predicate HasRequiredFields(e: Event) {
    e.name != "" && e.description != "" && e.location != "" && !e.dateTime.IsZeroValue()
  }

  /** The package-level `events` slice, as an object owned by the process. */
  class EventStore {
    /** The stored events, oldest first. */
    var events: seq<Event>

    /** The store starts empty. */
    constructor ()
      ensures events == []
    {
      events := [];
    }

    /** Appends `e` at the end. Any event is accepted: there is no failure
        case and no check that `e.id` is new. */
    method Save(e: Event)
      modifies this
      ensures events == old(events) + [e]
      ensures |events| == |old(events)| + 1
      ensures forall i :: 0 <= i < |old(events)| ==> events[i] == old(events)[i]
      ensures events[|events| - 1] == e
    {
      events := events + [e];
    }

    /** Every stored event, in the order it was saved; the store is not
        changed. */
    method GetAllEvents() returns (all: seq<Event>)
      ensures all == events
    {
      all := events;
    }
  }

  /** The store contents after `Save` has been called on each event of
      `batch` in turn, starting from `events`. */
  function SaveEach(events: seq<Event>, batch: seq<Event>): seq<Event>
    decreases |batch|
  {
    if batch == [] then events else SaveEach(events + [batch[0]], batch[1..])
  }

  /** Saving a batch one event at a time lists the batch after the earlier
      events, in the order it was saved, whatever the events' IDs. */
  lemma {:induction false} SaveEachKeepsOrder(events: seq<Event>, batch: seq<Event>)
    ensures SaveEach(events, batch) == events + batch
    ensures |SaveEach(events, batch)| == |events| + |batch|
    ensures forall i :: 0 <= i < |events| ==> SaveEach(events, batch)[i] == events[i]
    decreases |batch|
  {
    if batch != [] {
      SaveEachKeepsOrder(events + [batch[0]], batch[1..]);
      assert events + [batch[0]] + batch[1..] == events + batch;
    }
  }

  /** A process's store seen from the start: it lists nothing before the
      first Save, and two saved events are both kept, in order, even when
      they share an ID. */
  method FreshStoreSession(a: Event, b: Event) returns (before: seq<Event>, after: seq<Event>)
    ensures before == []
    ensures after == [a, b]
    ensures after == SaveEach(before, [a, b])
  {
    var store := new EventStore();
    before := store.GetAllEvents();
    store.Save(a);
    store.Save(b);
    after := store.GetAllEvents();
    SaveEachKeepsOrder(before, [a, b]);
  }
}
