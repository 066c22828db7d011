# Event booking REST API: event store and request handlers

A Dafny model of the core of a small Go web service that registers and
lists events. It covers two parts.

- **The event record and its store** (`models/event.go`). An `Event` has an
  ID, a name, a description, a location, a timestamp and a user ID. The
  name, description, location and timestamp are tagged as required. The
  process keeps one append-only collection of events. It starts empty.
  `Save` appends to it and `GetAllEvents` returns all of it.
- **The two handlers** (`main.go`). `getEvents` answers `GET /events` with
  status 200 and the stored events. `createEvent` answers `POST /events`.
  It binds the JSON body into a zero `Event`. If binding fails, it answers 400
  with `"Could not parse request data"`. Otherwise it sets `ID` and
  `UserID` to the placeholder 1 and answers 201 with `"Event created!"` and
  the event.

Modules:

- `Wrappers` (`wrappers.dfy`) holds `Option` and `Result`.
- `Events` (`events.dfy`) holds `Time`, `Event`, `Fields` and `Decode`. It
  also holds the `HasRequiredFields` rule and the `EventStore` class.
  `EventStore` is the package-level `events` slice as an object with a
  `seq<Event>` field. `Save` is a method that reassigns that field.
- `Handlers` (`handlers.dfy`) holds the request body as JSON decoding sees
  it, the binding step and both handlers. It also has `Run`, a sequential
  session of handler calls used to state what the handlers do to the store
  over time.

**Saving on create is announced but not done; the model follows the code.**
The comment on `Save` calls it the operation that saves an event
(`models/event.go:39`). `createEvent` is commented as using the client's data
to create a new event (`main.go:81-82`). But it never calls `Save`
(`main.go:124-128`), so a successful POST answers 201 and stores nothing.
`CreateEventHandler` and `GetEvents` take the store but have no `modifies`
clause. So the verifier's frame rule guarantees that neither handler changes
the store on any path. `CreatedEventIsNotListed` runs a create and then a
listing on a freshly constructed `EventStore`, and proves the listing is
empty. `RunLeavesStoreUnchanged` restates this over any sequence of handler
calls: every listing shows the initial contents, and every create answers as
`CreateEvent`.

## Model

| member | source | states |
|---|---|---|
| Events.Decode | models/event.go:6-29 | decoding a body into the zero `Event` copies each supplied member into its field; an `ID` or `UserID` the client did not supply is 0, a missing string is empty, a missing timestamp is the zero time |
| Events.EventStore.constructor | models/event.go:34 | the store starts with no events |
| Events.EventStore.Save | models/event.go:44-46 | the store becomes the old store with the event appended at the end; length grows by exactly one; every earlier event keeps its value and position; every event is accepted, duplicate IDs included |
| Events.EventStore.GetAllEvents | models/event.go:53-55 | returns exactly the stored events in insertion order and changes nothing |
| Events.SaveEachKeepsOrder | models/event.go:44-46 | saving a batch one event at a time leaves the earlier events followed by the batch in the order saved (FIFO), whatever the IDs |
| Events.FreshStoreSession | models/event.go:34-55 | a new store lists nothing before the first save; after saving two events, even ones with the same ID, it lists both in order, which is what `SaveEach` predicts for that batch |
| Handlers.ShouldBindJson | models/event.go:13-21 | binding succeeds exactly when the body is well-formed JSON whose name, description and location are present and non-empty and whose timestamp is present and not the zero value of `time.Time` (zero instant with UTC location); malformed bodies fail; the bound event is the decoded one |
| Handlers.CreateEvent | main.go:80-130 | exactly one of two outcomes; 400 with "Could not parse request data" exactly when binding fails; otherwise 201 with "Event created!" and an event with ID 1 and UserID 1 whatever the client sent, and the submitted name, description, location and timestamp |
| Handlers.GetEvents | main.go:66-78 | always status 200 with exactly the current store contents, an empty store included; the store is not changed; the response is the one `Handle` gives for a listing |
| Handlers.CreateEventHandler | main.go:80-130 | the step-by-step handler, with the store in reach, answers exactly as `CreateEvent` and as `Handle` for a create call; it cannot modify the store, so neither path saves |
| Handlers.RunLeavesStoreUnchanged | main.go:66-130 | over any sequence of handler calls the store is unchanged at the end, every listing returns 200 with the initial contents, and every create call answers as `CreateEvent` alone |
| Handlers.CreatedEventIsNotListed | main.go:124-128 | on a freshly constructed store, a create answers as `CreateEvent` (201 for a complete body) and the following listing is still 200 with the empty list, because the created event is never saved |
| Handlers.ZeroInstantNeedsUtcToBeRefused | models/event.go:21 | with the other required fields present, a timestamp at the zero instant in UTC is refused with 400, and the same instant with a numeric-offset location is accepted with 201 |

## Left out

- `main` (`main.go:16-52`): building the server, registering routes, binding the port, and the logger and recovery middleware are left out. The `Call` datatype stands for a routed request.
- JSON decoding and encoding by Gin and `encoding/json` are library code and are not modelled. A body is given as either `Malformed` or the members that its first JSON value supplies. `Malformed` means that first value fails to decode into an `Event`: invalid JSON, a wrong member type, a number outside 64 bits, or a timestamp that is not RFC 3339. Text after the first value is ignored by the decoder, so such a body binds like the value alone. Case-insensitive key matching is also on the library side.
- Events.Time: a location is either UTC (Go's nil location) or a numeric offset. Zone names and the local zone are not distinguished, because only nil versus non-nil matters to the required check. The monotonic clock reading is not modelled, because decoded timestamps do not carry one.
- Events.Event: `ID` and `UserID` use the subset type `Int64`, which is Go's `int` on a 64-bit platform. A 32-bit build, where `int` has 32 bits, is not modelled.
- Concurrency: concurrent `Save` calls on the unguarded slice can race in the source. The model is sequential, and `Run` applies calls one at a time.
- Aliasing: `GetAllEvents` returns the live slice in Go. The model returns a value sequence.
- Writing a response through Gin's `Context` is not modelled. Each handler's response is a value: a status code and a `Body`.
