# Shift management: verified model of the shift API and the shifts page

A small shift-scheduling application: a FastAPI service keeps a table of work
shifts (name, optional role, start, end, optional note) and a React page lists,
creates and deletes them. This project models the two pieces of logic under the
plumbing and proves their properties in Dafny:

- **The shift API** (`shift_api.dfy`, module `ShiftApi`). The `ShiftCreate`
  schema check, and the create, list and delete handlers over a table of shifts.
  The table is the class `ShiftStore`. Its field `rows` holds the rows in id
  order, and its field `nextId` is an id above every id in use. Its invariant
  `Valid()` says that every row has a name of 1 to 100 characters and a start
  strictly before its end, and that ids are unique. Create refuses a schema
  violation with 422 and `end_at <= start_at` with 400, leaving the table
  unchanged. Otherwise it appends exactly one row, with the payload's fields and
  a fresh id. List returns the rows as a permutation sorted by start. Delete
  removes exactly the row with the given id, or refuses with 404 and changes
  nothing.
- **The shifts page** (`shifts_page.dfy`, module `ShiftsPage`). The pure parts:
  `toLocalDatetimeString`, the request body `submit` builds (trimmed name, and
  `null` for a role or note that trims to empty), and the rule `del` uses to
  accept a response. The stateful part is the class `Page`, with the page's
  eight state variables. Its methods `FetchShifts`, `Submit` and `Del` make the
  same setter calls as the source, in the same order. Each is proved to end in
  the state given by a pure effect function (`FetchEffect`, `SubmitEffect`,
  `DeleteEffect`), and the contracts of those functions state what the page
  promises. Network results are parameters: an `HttpReply` (a response with
  `ok`, `status` and body text, or a rejected fetch), plus the decoded JSON
  list.
- `js_string.dfy` (module `JsString`) models ECMAScript's `String.prototype.trim`
  (section 22.1.3.32 of ECMA-262). It strips WhiteSpace (section 12.2) and
  LineTerminator (section 12.3) code points from both ends.
- `end_to_end.dfy` (module `EndToEnd`) relates the body the page sends to the
  server's schema check.

Timestamps on the server are integers in any encoding that keeps the order of
Python datetimes, for instance microseconds since a fixed instant. The client
keeps them as strings.

Facts about the client that the model makes explicit:

- The name input's `required` attribute lets a blank name through. A name of
  only spaces is trimmed to `""`, sent, and refused by the server with 422
  (`EndToEnd.BlankNameRefused`).
- There is no role input, so `role` stays `""` and every body sends
  `role: null` (`Page.Valid`, and `Page.Submit`'s `ensures body.role.None?`).
- The timestamp sent is the input's `YYYY-MM-DDTHH:MM` value with `:00`
  appended.

## Model

| member | source | states |
|---|---|---|
| `ShiftApi.CreateRefusal` | backend/app/main.py:73-74 | a payload is accepted exactly when its `user_name` has 1..100 characters (the `Field` constraint of line 38) and `start_at < end_at`; a schema violation gives 422, otherwise `end_at <= start_at` gives 400 with "end_at must be after start_at" |
| `ShiftApi.FindIndex` | backend/app/main.py:93 | the primary-key lookup finds nothing exactly when no row has the id; otherwise it gives the position of the first (with unique ids, the only) row with that id |
| `ShiftApi.InsertByStart` | backend/app/main.py:89 | adding one row to a start-sorted sequence keeps it sorted and adds exactly that row to its multiset of rows |
| `ShiftApi.SortByStart` | backend/app/main.py:89 | the result is sorted by `start_at` non-decreasing and is a permutation of the input |
| `ShiftApi.ShiftStore.constructor` | backend/app/main.py:18-27 | the table starts empty and valid, with ids handed out from 1 |
| `ShiftApi.ShiftStore.ListShifts` | backend/app/main.py:87-89 | the listing is exactly the current rows as a permutation (same multiset, same length), ordered by `start_at` ascending |
| `ShiftApi.ShiftStore.CreateShift` | backend/app/main.py:71-85 | refusals are exactly those of `CreateRefusal`, and a refusal leaves the table unchanged; on success the returned row has the payload's fields and an id not already used, the table is the old rows plus exactly that row, and the invariant (valid rows, unique ids) is kept |
| `ShiftApi.ShiftStore.DeleteShift` | backend/app/main.py:91-98 | an id not present gives 404 "shift not found" and leaves the table unchanged; a present id is removed: the table is the old rows less exactly that row, in order, the id is gone, and every other row remains |
| `ShiftApi.ShrunkIdsIncreasing` | backend/app/main.py:96-97 | removing one row keeps ids increasing, so the store invariant survives a delete |
| `ShiftApi.RemovedRowGone` | backend/app/main.py:96-97 | with unique ids, removing the row at a position removes its id from the table and keeps exactly the rows with other ids |
| `JsString.Trim` | frontend/app/shifts/page.tsx:61 | `trim()` returns the part of the input right after its longest whitespace prefix, followed only by whitespace, with no whitespace at either end; it is empty exactly when the input is all whitespace |
| `JsString.TrimIdempotent` | frontend/app/shifts/page.tsx:61 | trimming twice is trimming once |
| `ShiftsPage.ToLocalDatetimeString` | frontend/app/shifts/page.tsx:18-22 | `""` maps to `""`; a non-empty value is a prefix of the result, which is 3 characters longer and ends in `:00` |
| `ShiftsPage.TrimmedOrNull` | frontend/app/shifts/page.tsx:62 | the trimmed-or-null value is null exactly when the input is all whitespace, and otherwise the non-empty trimmed text |
| `ShiftsPage.BuildBody` | frontend/app/shifts/page.tsx:60-66 | the body's `user_name` is the trimmed name; `role` and `note` are null exactly when blank and otherwise trimmed, with no edge whitespace; non-empty start and end times gain `:00` |
| `ShiftsPage.ExampleBody` | frontend/app/shifts/page.tsx:60-66 | the form ("田中", "", "2025-11-30T10:30", "2025-11-30T12:30", "") yields the body ("田中", null, "2025-11-30T10:30:00", "2025-11-30T12:30:00", null) |
| `ShiftsPage.DeleteSucceeded` | frontend/app/shifts/page.tsx:95 | a delete counts as successful exactly when the fetch produced a response that is `ok` or has status 204; a rejected fetch is a failure |
| `ShiftsPage.DeleteSucceededIsOk` | frontend/app/shifts/page.tsx:95 | when `ok` means status 200..299, as the Fetch standard defines it, the rule "`ok` or status 204" accepts exactly the `ok` responses |
| `ShiftsPage.FetchEffect` | frontend/app/shifts/page.tsx:34-48 | loading ends false and the form is untouched; on success the list is replaced by the returned data and the error is cleared; on failure the list is unchanged and the error is the response text or rejection message |
| `ShiftsPage.SubmitEffect` | frontend/app/shifts/page.tsx:55-86 | after a successful create the five fields are `""` and a list refresh follows; after a failed one the fields, list and loading flag are unchanged and the error holds the message |
| `ShiftsPage.DeleteEffect` | frontend/app/shifts/page.tsx:88-103 | without confirmation nothing changes; a successful delete clears the error and refreshes the list; a failed one keeps the list and shows the message; the form is never touched |
| `ShiftsPage.RetryAfterFailedCreate` | frontend/app/shifts/page.tsx:82-85 | after a failed create the form still builds the same body and may be submitted again |
| `ShiftsPage.SubmitAllowed` | frontend/app/shifts/page.tsx:137-185 | the browser submits the form exactly when the page is not loading, the three `required` inputs are non-empty and both times pass the `step={60 * 30}` check; an allowed form never sends an empty timestamp |
| `ShiftsPage.SubmittedTimesHaveSeconds` | frontend/app/shifts/page.tsx:63-64 | a form the browser lets submit sends both times as the typed value plus 3 characters |
| `ShiftsPage.Page.constructor` | frontend/app/shifts/page.tsx:25-32 | the page starts with empty fields, no shifts, loading true and no error |
| `ShiftsPage.Page.EditUserName` | frontend/app/shifts/page.tsx:136 | typing in the name input sets that field and nothing else |
| `ShiftsPage.Page.EditStartAt` | frontend/app/shifts/page.tsx:150 | the start input sets that field and nothing else |
| `ShiftsPage.Page.EditEndAt` | frontend/app/shifts/page.tsx:164 | the end input sets that field and nothing else |
| `ShiftsPage.Page.EditNote` | frontend/app/shifts/page.tsx:177 | the note textarea sets that field and nothing else |
| `ShiftsPage.Page.FetchShifts` | frontend/app/shifts/page.tsx:34-48 | the setter sequence of `fetchShifts` ends in exactly the state `FetchEffect` gives |
| `ShiftsPage.Page.Submit` | frontend/app/shifts/page.tsx:55-86 | sends the body `BuildBody` gives for the form as it was, with role always null, and ends in exactly the state `SubmitEffect` gives |
| `ShiftsPage.Page.OnFormSubmit` | frontend/app/shifts/page.tsx:125-188 | the handler runs exactly when `SubmitAllowed` holds: not loading (the disabled button), name, start and end non-empty (`required`), and both times on the 30-minute `step`; otherwise no request is sent and nothing changes |
| `ShiftsPage.Page.Del` | frontend/app/shifts/page.tsx:88-103 | a request for the id is sent exactly when confirmed, and the page ends in exactly the state `DeleteEffect` gives |
| `EndToEnd.BlankNameRefused` | backend/app/main.py:38 | a name of only whitespace passes the browser's `required` check, is sent as `""` and is refused by the server's schema with 422 |
| `EndToEnd.WellFormedFormAccepted` | backend/app/main.py:72-74 | a form whose trimmed name has 1..100 characters, with times that parse in order, passes the server's checks |

## Left out

- HTTP transport, FastAPI routing, CORS, the `/health` endpoint and `fetch`: the model takes response and request values directly.
- SQLAlchemy sessions, `get_db` and SQLite: the table is an in-memory sequence of rows. Ids come from a counter that is never reused. SQLite's default rowid allocation may reuse the largest id after it is deleted. Both choices give an id not present in the table, which is all the handlers rely on.
- Ids: unbounded in the model; in SQLite they are 64-bit rowids.
- Timestamps: unbounded integers in the model; in the source they are Python datetimes (years 1 to 9999, to the microsecond), stored by SQLAlchemy as text. Only their order is modelled.
- Pydantic datetime parsing, time zones, and comparing naive with aware datetimes (a server error in Python): timestamps are plain integers. The detail text of a 422 response is not modelled.
- `ShiftApi.ShiftStore.ListShifts`: SQL leaves the order of rows with equal `start_at` unspecified. The model's contract likewise promises only sortedness and permutation, not any order among ties.
- The JSON decoding of the list response is an input (`Result` of decoded shifts or an error message). Serialising the body to JSON is not modelled beyond `CreateBody`.
- The intermediate render while a request is in flight (loading true, error cleared) is not observable in the model. The methods state the settled state only. Overlapping `fetchShifts` calls (the reload race) are left out because they are about concurrency.
- The `confirm` dialog is the boolean input `confirmed`. Rendering (the table, the "no data" message, `toLocaleString('ja-JP')` display) is not modelled.
- The browser's `datetime-local` value format is not modelled: the edit methods accept any string. Whether a time lies on the 30-minute step is therefore an input (`startOnStep`, `endOnStep`) of `OnFormSubmit` and `SubmitAllowed`, not computed from the value.
- frontend/app/page.tsx is not part of this model: a static page whose only request is commented out.
