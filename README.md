# Calendar events: store service and client form, modelled in Dafny

The repository is a small calendar application. A REST service keeps a
collection of events (name, start time, duration in minutes, type) and
offers list, range summary, create and delete. A single-page client renders
the events on a calendar and drives a create/inspect/delete form. This
project models both components and proves the rules they contain.

- `wrappers.dfy`: `Option`, for absent JSON fields and null references.
- `event_store.dfy` (module `EventStore`): the `Event` schema, the create
  validator with its falsy-field rule, the range selector and the inclusive
  time filter, deletion by id, and class `Collection` whose methods are the
  four HTTP handlers. The collection is a sequence of documents in the
  store's natural order plus a counter that hands out fresh ids. Its
  invariant is that ids are distinct and below the counter.
- `calendar_client.dfy` (module `CalendarClient`): the `fetchEvents`
  conversion (`start = time`, `end = time + duration * 60000`), minute
  truncation and the past-slot rule, `trim` and the submit checks, and
  class `App`, whose fields are the component's `useState` variables and
  whose methods are the handlers. Its invariant is that every rendered entry
  is derived from its fetched event and that the type field is never empty.
- `end_to_end.dfy` (module `EndToEnd`): the client's payload as the
  service's create body, a stored document as the client reads it back, and
  the lemmas that connect them. It also holds a create/list/show/delete
  scenario whose assertions are proved.

Parameters stand in for everything outside the program: the current time
`now`, the Date library's "one calendar month earlier" instant `monthAgo`,
the user's answer to the delete confirmation, the HTTP status (`ok`), the
service's `error` text, and the list re-fetched after a success.

Three behaviours of the code are modelled as written, though they may look unintended:
- The service accepts any nonzero duration, negative ones included. Only 0
  counts as missing.
- The client rejects a slot only when its minute starts before the current
  minute. A slot earlier in the current minute is accepted.
- The schema has no description, so it is dropped on create and comes back
  empty on the client.

## Model

| member | source | states |
|---|---|---|
| `EventStore.MissingRequired` | backend-task/index.js:52 | a field is missing exactly when it is absent or holds its falsy value: `""` for name and type, 0 for duration |
| `EventStore.Admit` | backend-task/index.js:51-55 | rejects exactly when one of name, time, duration, type is falsy; otherwise stores the four schema fields under the given id |
| `EventStore.ZeroDurationRejected` | backend-task/index.js:52 | a duration of 0 is rejected like a missing one |
| `EventStore.NonzeroDurationAccepted` | backend-task/index.js:52 | with the other fields truthy, every nonzero duration, negative included, is accepted and stored as given |
| `EventStore.EmptyStringRejected` | backend-task/index.js:52 | an empty name or type is rejected |
| `EventStore.DescriptionDropped` | backend-task/index.js:17-22 | the body's description has no influence on the stored document |
| `EventStore.ParseRange` | backend-task/index.js:36-44 | exactly `"weekly"` and `"monthly"` are valid ranges; every other value, absent included, is invalid |
| `EventStore.WindowStart` | backend-task/index.js:36-41 | weekly starts 7 days before now, monthly at the Date library's month-earlier instant; the start is not after now whenever that instant is not |
| `EventStore.FindBetween` | backend-task/index.js:46 | keeps exactly the documents with `lo <= time <= hi`, both ends inclusive, each as many times as it is stored, never more than the collection |
| `EventStore.EmptyStoreEmptyWindow` | backend-task/index.js:46-47 | an empty collection gives an empty result, not an error |
| `EventStore.WeeklyWindowExamples` | backend-task/index.js:36-46 | the weekly window holds an event 3 days old and excludes one 8 days old |
| `EventStore.WithoutId` | backend-task/index.js:61 | removes the documents with the id and keeps every other one as many times as it is stored; an absent id leaves the collection unchanged |
| `EventStore.DeleteIdempotent` | backend-task/index.js:60-62 | deleting an id twice equals deleting it once |
| `EventStore.WithoutIdDistinct` | backend-task/index.js:61 | deletion keeps ids distinct |
| `EventStore.WithoutIdRemovesOne` | backend-task/index.js:61 | when the id is present, exactly one document is removed |
| `EventStore.Collection.constructor` | backend-task/index.js:24 | an empty collection, as on a fresh database, satisfying the invariant |
| `EventStore.Collection.ListAll` | backend-task/index.js:26-29 | 200 with every stored document and nothing else |
| `EventStore.Collection.Summary` | backend-task/index.js:31-48 | an invalid range gives the 400 error "Invalid range. Use weekly or monthly." whatever is stored; a valid one gives 200 with exactly `FindBetween` of the stored documents over `[start, now]`, and an empty list on an empty store |
| `EventStore.Collection.Create` | backend-task/index.js:50-58 | 400 and no change when a required field is falsy; otherwise 201 with the admitted document, whose id no stored document has, appended with nothing else changed |
| `EventStore.Collection.Delete` | backend-task/index.js:60-63 | always 204; the document with that id is removed, every other one is kept, and the invariant holds |
| `CalendarClient.ToCalendarEvent` | frontend-task/src/App.js:34-38 | the entry keeps the fetched fields, starts at the event's time and ends `duration` minutes later |
| `CalendarClient.ParseEvents` | frontend-task/src/App.js:34-38 | one derived entry per fetched element, in the same order |
| `CalendarClient.EndNotBeforeStart` | frontend-task/src/App.js:37 | a derived entry with a non-negative duration does not end before it starts |
| `CalendarClient.ShownDuration` | frontend-task/src/App.js:73 | on a derived entry, the detail view's `(end - start) / 60000` equals the stored duration |
| `CalendarClient.TruncateToMinute` | frontend-task/src/App.js:48-49 | the result is the start of the minute holding the instant: a whole minute, at most the instant and less than a minute before it |
| `CalendarClient.TruncateMonotone` | frontend-task/src/App.js:49-51 | truncation keeps the order of instants |
| `CalendarClient.InPast` | frontend-task/src/App.js:51 | a slot is rejected exactly when it lies before the start of the current minute |
| `CalendarClient.CurrentAndFutureSlotsAccepted` | frontend-task/src/App.js:51-58 | a slot at or after now, or within the current minute, is accepted |
| `CalendarClient.TrimStartSpec` | frontend-task/src/App.js:80 | removes exactly the leading white space |
| `CalendarClient.TrimEndSpec` | frontend-task/src/App.js:80 | removes exactly the trailing white space |
| `CalendarClient.Trim` | frontend-task/src/App.js:80 | `trim()` is empty exactly for strings of white space only |
| `CalendarClient.SubmitCheck` | frontend-task/src/App.js:80-88 | a blank name is refused first, then a duration that is not positive; otherwise the request is sent |
| `CalendarClient.OrDefault` | frontend-task/src/App.js:74-75 | `value \|\| fallback`: a present non-empty value, else the fallback |
| `CalendarClient.App.constructor` | frontend-task/src/App.js:14-22 | the initial state values, which satisfy the invariant |
| `CalendarClient.App.FetchEvents` | frontend-task/src/App.js:31-40 | replaces the rendered list with the derived entries and changes nothing else |
| `CalendarClient.App.SelectSlot` | frontend-task/src/App.js:46-67 | a past slot raises the error and changes nothing; otherwise selects the truncated slot, resets name, duration 15, description and type `Work`, clears the selected event and opens the modal |
| `CalendarClient.App.SelectEvent` | frontend-task/src/App.js:69-77 | selects the event, clears the slot, copies the name and the stored duration, defaults description to empty and type to `Work`, opens the modal |
| `CalendarClient.App.Submit` | frontend-task/src/App.js:79-115 | no request when the checks fail or no slot is selected; a sent payload carries the form fields and a non-empty type; a success re-fetches, closes the modal and resets name, duration, description and slot but not the type; a failure surfaces the server's error text and changes nothing |
| `CalendarClient.App.Delete` | frontend-task/src/App.js:117-144 | no request without a selected event or confirmation; a success re-fetches, clears the selection, resets the form and closes the modal; a failure changes nothing |
| `CalendarClient.App.EditName` | frontend-task/src/App.js:213 | sets only the name |
| `CalendarClient.App.EditDuration` | frontend-task/src/App.js:221 | sets only the duration |
| `CalendarClient.App.CloseModal` | frontend-task/src/App.js:189 | closes only the modal |
| `EndToEnd.ToBody` | frontend-task/src/App.js:90-101 | the service receives all five payload fields, description included |
| `EndToEnd.ToFetched` | frontend-task/src/App.js:33 | a stored document reaches the client without a description |
| `EndToEnd.FetchAll` | frontend-task/src/App.js:32-33 | the list response read element by element, in order |
| `EndToEnd.CheckedPayloadAccepted` | backend-task/index.js:52 | a payload that passed the client's checks from a non-empty type passes the service's guard |
| `EndToEnd.StoredEventRoundTrip` | frontend-task/src/App.js:90-96 | the document stored for a checked payload is shown from its time to `duration` minutes later, shows the submitted duration, name and type again, and has lost its description |

## Left out

- Express, CORS, `app.listen`, the MongoDB connection and its logging: I/O plumbing, replaced by the in-memory collection.
- Mongoose internals: ObjectId generation (modelled as a counter), casting of the `time` string to a Date (the body carries the instant in ms), cast failures and any other store error (not handled by the handlers, which have no try/catch).
- The store's natural order is taken to be insertion order (`Create` appends, `ListAll` returns the sequence); this is one order MongoDB may return, not one it guarantees, and no proved property depends on it.
- EventStore.CreateBody: a `time` that is present is taken to be truthy, as the ISO string the client sends always is; a raw `""` or `0` sent by another caller would be rejected by the source.
- JavaScript Date local-time behaviour: the monthly start is the parameter `monthAgo`; the weekly start is exactly `now - 7 * 86400000`, which differs from `setDate(getDate() - 7)` by the DST shift when one falls inside the week; minute truncation assumes a time-zone offset of whole minutes.
- EventStore.Collection.Summary: that the 400 path never reads the store is stated only as a response independent of the store.
- `fetch`, `res.json()` and async ordering: response status, error text and the re-fetched list are parameters; network failures are not modelled.
- CalendarClient.App.Submit: with no selected slot the source throws a TypeError in `selectedSlot.toISOString()`; the model sends nothing and changes nothing.
- String handling of the duration input (`isNaN`, `parseInt`): the duration is an integer, so a fractional input such as "0.5", which passes the client check and becomes 0 on the service, is not modelled.
- CalendarClient.ShownDuration: JavaScript divides exactly; the model uses integer division, which agrees on every derived entry, the only ones the calendar passes. Instants are unbounded integers, while a JavaScript Date holds only ±8.64e15 ms: in the source an `end` outside that range (a duration above about 1.44e11 minutes passes both checks) is an Invalid Date and the shown duration is NaN, so the round trip holds there only within the Date range.
- EndToEnd.StoredEventRoundTrip: holds for every integer duration in the model; in the source only while `time + duration * 60000` stays within the Date range of ±8.64e15 ms.
- Rendering: the Calendar widget, Modal layout, `customEventStyleGetter`, `handleViewChange`, `onNavigate`, the `viewDate` and `viewMode` state, moment formatting. Alert dialogs are the `Alert` value; the confirmation is a boolean.
