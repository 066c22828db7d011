/**
 * The two request handlers of main.go: `getEvents` (GET /events) and
 * `createEvent` (POST /events), between a decoded request body and the
 * event store.
 */
module Handlers {
  import opened Wrappers
  import opened Events

  // The net/http status codes the handlers use.
  const StatusOK: int := 200
  const StatusCreated: int := 201
  const StatusBadRequest: int := 400

  const ParseFailureMessage: string := "Could not parse request data"
  const CreatedMessage: string := "Event created!"

  /** A POST body as JSON decoding sees it. Only the first JSON value of the
      body is read; any text after it is ignored. When that first value
      fails to decode into an Event (it is not JSON, or a member does not
      fit its field's type: a number outside 64 bits, a timestamp that is
      not RFC 3339), the body is Malformed; otherwise it is the members that
      value supplies. */
  datatype RequestBody = Malformed | Json(fields: Fields)

  /** Why binding failed; both reasons lead to the same response. */
  datatype BindError = DecodeError | RequiredMissing

  /** The JSON body of a response: `{"message": …}`, `{"message": …,
      "event": …}`, or an array of events. */
  datatype Body =
    | Message(message: string)
    | Created(message: string, event: Event)
    | EventList(events: seq<Event>)

  datatype Response = Response(status: int, body: Body)

  /** The body supplies a non-empty name, description and location and a
      timestamp other than the zero value of `time.Time`. */
  predicate RequiredSupplied(f: Fields) {
    && f.name.Some? && f.name.value != ""
    && f.description.Some? && f.description.value != ""
    && f.location.Some? && f.location.value != ""
    && f.dateTime.Some? && !f.dateTime.value.IsZeroValue()
  }

  /** `ShouldBindJSON` into a zero Event: decode, then apply the required
      tags. It succeeds exactly when the body is JSON that supplies every
      required field with a non-zero value. */
  function ShouldBindJson(body: RequestBody): (r: Result<Event, BindError>)
    ensures body.Malformed? ==> r == Failure(DecodeError)
    ensures r.Success? <==> body.Json? && RequiredSupplied(body.fields)
    ensures r.Success? ==> body.Json? && r.value == Decode(body.fields)
  {
    match body
    case Malformed => Failure(DecodeError)
    case Json(f) =>
      var event := Decode(f);
      if HasRequiredFields(event) then Success(event) else Failure(RequiredMissing)
  }

  /** The response `createEvent` writes for a request body. The event is
      not saved: the handler never calls `Save`. */
  function CreateEvent(body: RequestBody): (response: Response)
    ensures response.status == StatusBadRequest || response.status == StatusCreated
    ensures response.status == StatusCreated <==> body.Json? && RequiredSupplied(body.fields)
    ensures response.status == StatusBadRequest ==>
              response.body == Message("Could not parse request data")
    ensures response.status == StatusCreated ==>
              && body.Json?
              && var f := body.fields;
              response.body == Created("Event created!",
                Event(1, f.name.value, f.description.value, f.location.value, f.dateTime.value, 1))
  {
    match ShouldBindJson(body)
    case Failure(_) => Response(StatusBadRequest, Message(ParseFailureMessage))
    case Success(event) =>
      var event := event.(id := 1);
      var event := event.(userID := 1);
      Response(StatusCreated, Created(CreatedMessage, event))
  }

  /** The response `getEvents` writes for the store contents `events`. */
  function ListResponse(events: seq<Event>): Response {
    Response(StatusOK, EventList(events))
  }

  /** One invocation of a handler by the HTTP server. */
  datatype Call = GetEventsCall | CreateEventCall(body: RequestBody)

  /** Runs one handler against the store contents `events`, giving the
      store contents afterwards and the response. */
  function Handle(events: seq<Event>, call: Call): (seq<Event>, Response) {
    match call
    case GetEventsCall => (events, ListResponse(events))
    case CreateEventCall(body) => (events, CreateEvent(body))
  }

  /** `getEvents`: always 200, with exactly the stored events in the order
      they were saved, an empty array included; the store is not changed. */
  method GetEvents(store: EventStore) returns (response: Response)
    ensures response.status == StatusOK
    ensures response.body == EventList(store.events)
    ensures response == Handle(store.events, GetEventsCall).1
  {
    var events := store.GetAllEvents();
    response := ListResponse(events);
  }

  /** `createEvent` as the handler runs it, step by step, with the store in
      reach. It has no licence to modify the store, so the store is the same
      after the call on both paths. */
  method CreateEventHandler(store: EventStore, body: RequestBody) returns (response: Response)
    ensures response == CreateEvent(body)
    ensures response == Handle(store.events, CreateEventCall(body)).1
  {
    var bound := ShouldBindJson(body);
    if bound.Failure? {
      response := Response(StatusBadRequest, Message(ParseFailureMessage));
      return;
    }
    var event := bound.value;
    event := event.(id := 1);
    event := event.(userID := 1);
    response := Response(StatusCreated, Created(CreatedMessage, event));
  }

  /** Runs the handler invocations `calls` one after another, giving the
      store contents at the end and the responses in order. */
  function Run(events: seq<Event>, calls: seq<Call>): (seq<Event>, seq<Response>)
    decreases |calls|
  {
    if calls == [] then (events, [])
    else
      var (after, response) := Handle(events, calls[0]);
      var (final, responses) := Run(after, calls[1..]);
      (final, [response] + responses)
  }

  /** Neither handler changes the store, so after any sequence of requests
      the store is what it was, and every listing shows it as it was. */
  lemma {:induction false} RunLeavesStoreUnchanged(events: seq<Event>, calls: seq<Call>)
    ensures Run(events, calls).0 == events
    ensures |Run(events, calls).1| == |calls|
    ensures forall i :: 0 <= i < |calls| && calls[i].GetEventsCall? ==>
              Run(events, calls).1[i] == Response(StatusOK, EventList(events))
    ensures forall i :: 0 <= i < |calls| && calls[i].CreateEventCall? ==>
              Run(events, calls).1[i] == CreateEvent(calls[i].body)
    decreases |calls|
  {
    if calls != [] {
      RunLeavesStoreUnchanged(events, calls[1..]);
      var responses := Run(events, calls).1;
      assert responses == [Handle(events, calls[0]).1] + Run(events, calls[1..]).1;
      forall i | 1 <= i < |calls|
        ensures responses[i] == Run(events, calls[1..]).1[i - 1]
        ensures calls[i] == calls[1..][i - 1]
      {
      }
    }
  }

  /** In a process that has just started, POST /events followed by
      GET /events on the store: the create answers as `CreateEvent` does
      (201 for a complete body), and the listing is still empty, because the
      created event is never saved. */
  method CreatedEventIsNotListed(body: RequestBody) returns (created: Response, listing: Response)
    ensures created == CreateEvent(body)
    ensures listing == Response(StatusOK, EventList([]))
  {
    var store := new EventStore();
    created := CreateEventHandler(store, body);
    listing := GetEvents(store);
  }

  /** The `required` check on `DateTime` is a zero-value check on the whole
      struct: the zero instant written with "Z" is refused, while the same
      instant written with a numeric offset is accepted. */
  lemma ZeroInstantNeedsUtcToBeRefused(name: string, description: string, location: string, offset: int)
    requires name != "" && description != "" && location != ""
    ensures CreateEvent(Json(Fields(None, Some(name), Some(description), Some(location),
              Some(Time(0, 0, UTC)), None))).status == StatusBadRequest
    ensures CreateEvent(Json(Fields(None, Some(name), Some(description), Some(location),
              Some(Time(0, 0, Offset(offset))), None))).status == StatusCreated
  {
  }
}
