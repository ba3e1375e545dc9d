# VAPI to-do tool backend — a Dafny model

The system is a Flask backend that a voice agent calls with "tool calls". It
keeps three local tables (to-dos, reminders, calendar entries) and mirrors
each record on the user's primary Google Calendar. Every tool route first
picks the tool call it serves out of the posted envelope. Then:

- The create routes and `complete_todo` commit the local change first, and
  then make a best-effort request to the calendar service. The service is
  built lazily, once per process.
- The delete routes make the best-effort remote delete first, and then
  commit the local removal.
- The list routes only read the local table. They commit nothing and make
  no remote call.

A remote failure never prevents or undoes a local commit. It only leaves
the local record without a back-reference (the remote event id), or
leaves a stale remote event behind.

The model has six modules:

- `Common` (common.dfy): `Option`, the three ways a remote request can end
  (`Reply`: an answer, an `HttpError`, any other exception), `Call` (a
  method returned or raised), and Python truthiness of optional strings.
- `Schemas` (schemas.dfy): the tool-call envelope, its validation from
  decoded JSON and its JSON encoding, and the three response shapes.
- `Models` (models.dfy): the three record kinds and their column defaults.
- `Helpers` (helpers.dfy): `get_validated_tool_call`, with its in-order
  search loop as a method.
- `GoogleCalendar` (google_calendar.dfy):
  - the event body `create_event` inserts;
  - the merge `update_event` performs;
  - the credential-source decision of `_authenticate`, as a specification
    function and as an imperative method proved equal to it;
  - the remote calendar as a `Calendar` object;
  - `GoogleCalendarService` as a class over it;
  - the process-wide singleton of `get_calendar_service` as a `Registry`
    object.
- `Routes` (routes.dfy): the ten tool routes as methods of an `App` class.
  - The class holds the three tables, the id counters and the registry.
  - A ghost `trace` records, in order, every local commit and every remote
    operation a handler starts once it holds the service: a create, an
    update or a delete. An update stands for its fetch and its write
    together, and is recorded whatever the replies are. This lets the
    contracts state that a create commits locally before it calls the
    remote service, and that a delete calls the remote service before it
    commits.
  - The contracts also state the cached service afterwards: an existing
    one is kept, and a handler that asks for one leaves one behind exactly
    when authentication succeeds.
  - The invariant `App.Valid` states:
    - every id in a table is below that table's counter;
    - every stored back-reference is an id that some remote insert
      returned;
    - at most one service is ever built.

Remote replies, the clock (`utcnow()`), the ISO-8601 parser
(`datetime.fromisoformat`) and the JSON string parser (`json_loads`) are
inputs of the operations that use them. Time is integer seconds and
`HOUR` is 3600. One `now` stands for every `utcnow()` reading made while a
handler runs. `add_calendar_entry` can read the clock up to two times:
once at vapi_todo/routes.py:182 or 187, and once at
shared/google_calendar.py:119. Its exact one-hour equalities rest on those
readings being equal.

The JSON string parser returns any JSON value, and `get_validated_tool_call`
assigns it without validation, so a selected call's arguments may be a
list, a string or a number. One observation, not executed: Flask's
`Request` appears to offer `get_json` and `json_module` but no
`json_loads` attribute. If so, shared/helpers.py:25 raises on every string
argument, which is the model with a parser that always returns `None`
(`Helpers.Normalized` then yields `Crashed`).

Two behaviours of the code, both stated as proved properties below:

- A token in `GOOGLE_TOKEN_B64` that cannot be decoded is dropped. The
  token file is not tried after it (`GarbledTokenIgnoresFile`).
- `add_calendar_entry` stores an entry without `event_to` with no end time,
  while the remote event gets an end one hour after the start
  (`AbsentEndDiffersFromRemote`). Such a row cannot be validated as a
  `CalendarEventResponse`, so `get_calendar_entries` fails validation for
  as long as that row exists (`EntryWithoutTimeBlocksListing`).

## Model

| member | source | states |
|---|---|---|
| Schemas.ParseArguments | shared/schemas.py:7-9 | arguments validate exactly when they are a string or a mapping |
| Schemas.ParseToolCalls | shared/schemas.py:15-16 | a list of tool calls validates iff every element validates; then it has the same length and holds each element's validated form at the same position |
| Schemas.ParseFunction | shared/schemas.py:7-9 | a function validates exactly when it is a mapping with a string `name` and an `arguments` that validates, and then carries both |
| Schemas.ParseToolCall | shared/schemas.py:11-13 | a tool call validates exactly when it is a mapping with a string `id` and a `function` that validates, and then carries both |
| Schemas.ParseMessage | shared/schemas.py:15-16 | a message validates exactly when it is a mapping whose `toolCalls` is a list of which every element validates, and then carries those calls in order |
| Schemas.ParseToolRequest | shared/schemas.py:18-20 | an object validates iff it has a `message` key whose value validates as a message, whatever else it holds; it is then non-empty and carries that message |
| Schemas.UndeclaredKeysIgnored | shared/schemas.py:7-20 | adding a key the schema does not declare, at any level of the envelope, never changes the outcome of validation |
| Schemas.ParseEncodeToolCall | shared/schemas.py:7-13 | a tool call's JSON form validates back to the same tool call |
| Schemas.ParseEncodeToolRequest | shared/schemas.py:7-20 | every envelope's JSON form validates back to the same envelope, all calls in order |
| Models.NewTodo | vapi_todo/models.py:5-11 | a new to-do keeps its title and description, is not completed and has no back-reference |
| Models.NewReminder | vapi_todo/models.py:13-18 | a new reminder keeps its text and importance and has no back-reference |
| Models.NewCalendarEntry | vapi_todo/models.py:20-27 | a new entry keeps its title, description and both times and has no back-reference |
| Helpers.FirstIndex | shared/helpers.py:21-22 | the position found is the first call with the expected name, or the list length when no call has it |
| Helpers.Normalized | shared/helpers.py:23-26 | a selected call keeps its id and name and never aborts; mapping arguments are passed on as validated; string arguments are replaced by the parser's value, of any JSON kind, and a parser exception propagates |
| Helpers.GetValidatedToolCall | shared/helpers.py:5-28 | a missing or falsy body gives 400; a truthy non-object raises; an envelope that fails validation gives 400; otherwise the first call with the expected name is returned with its arguments normalised, or 400 when there is none |
| Helpers.SelectToolCall | shared/helpers.py:21-28 | the loop returns the first call with the expected name, with its arguments normalised; it aborts with 400 only when no call has that name |
| Helpers.FirstIndexIgnoresLaterCalls | shared/helpers.py:21-26 | calls appended after a match never change which call is selected |
| Helpers.FirstIndexSkipsOtherNames | shared/helpers.py:21-22 | calls of other names placed in front only shift the selected position by their number |
| GoogleCalendar.NewEventBody | shared/google_calendar.py:117-134 | the inserted body keeps the title; it has the description or ""; its start is the given start or now; its end is the given end or one hour after the start; both ends are in the given time zone |
| GoogleCalendar.Merge | shared/google_calendar.py:169-177 | the title is replaced only by a truthy one; any given description replaces the old one ("" included); the date-times are replaced when given; time zones and all other fields are kept |
| GoogleCalendar.MergeIdempotent | shared/google_calendar.py:169-177 | applying the same update twice gives the result of applying it once |
| GoogleCalendar.MergeNothingIsIdentity | shared/google_calendar.py:169-177 | an update with no truthy title and no other value writes back the fetched event unchanged |
| GoogleCalendar.AuthDecision | shared/google_calendar.py:31-97 | a valid loaded credential is used as is and not saved; an invalid, expired one with a refresh token is refreshed; otherwise the client registration comes from the environment (RuntimeError if it is undecodable or rejected by `from_client_secrets_file`), else from the file (another exception if it is rejected), else FileNotFoundError; a token file that is consulted and cannot be loaded raises first; the token file is rewritten exactly when the credential was refreshed or newly obtained |
| GoogleCalendar.LoadedCreds | shared/google_calendar.py:36-46 | a decodable token variable is the loaded credential; an undecodable one leaves none; only without the variable is the token file read, and then a stored credential is loaded exactly when the file holds one |
| GoogleCalendar.GarbledTokenIgnoresFile | shared/google_calendar.py:36-46 | with an undecodable token variable the token file has no influence, and no refresh happens |
| GoogleCalendar.NoConfigurationFails | shared/google_calendar.py:73-81 | with no token and no client registration anywhere, authentication raises FileNotFoundError |
| GoogleCalendar.Authenticate | shared/google_calendar.py:31-99 | the step-by-step reassignment of the credential reaches exactly the outcome of the decision |
| GoogleCalendar.CalendarService.CreateEvent | shared/google_calendar.py:101-144 | on success the returned id now holds the body and is recorded as issued; on HttpError it returns None and changes nothing; any other exception propagates and changes nothing |
| GoogleCalendar.CalendarService.UpdateEvent | shared/google_calendar.py:146-187 | returns True iff the fetch and the write both succeed on an existing event; the event then becomes the merge; an HttpError (a missing event included) returns False and changes nothing; other exceptions propagate |
| GoogleCalendar.CalendarService.DeleteEvent | shared/google_calendar.py:189-207 | returns True iff the event existed and the request succeeded; afterwards the event is gone exactly when the request succeeded or it was already gone; other exceptions propagate |
| GoogleCalendar.CalendarService.GetEvent | shared/google_calendar.py:209-227 | returns the stored event iff the request succeeds and the event exists, else None; other exceptions propagate; nothing changes |
| GoogleCalendar.Registry.constructor | shared/google_calendar.py:229-230 | the global starts unset |
| GoogleCalendar.Registry.GetCalendarService | shared/google_calendar.py:232-237 | an existing instance is returned again and nothing new is built; otherwise a fresh service is built iff authentication succeeds, carrying its credential; a failure leaves the global unset; at most one service is ever built |
| Routes.BackRef | vapi_todo/routes.py:33-41 | a back-reference is stored iff the service was reached and the insert returned a non-empty id, and it is that id |
| Routes.CreateCommitsFirst | vapi_todo/routes.py:26-41 | in a create, the local insert is the first step; the only remote request comes right after it; a back-fill commit exists iff a back-reference was obtained, comes last and carries it |
| Routes.TodoEvent | vapi_todo/routes.py:35-38 | a new to-do's remote event is titled "TODO: " plus the title (None renders as "None"), has the description or the fixed text, and spans one hour from now |
| Routes.ReminderEvent | vapi_todo/routes.py:123-126 | a new reminder's remote event is titled "REMINDER: " plus the text, is described by the importance line, and spans one hour from now |
| Routes.EntryEvent | vapi_todo/routes.py:198-203 | a new entry's remote event has the entry's title and description (or the fixed text); its start is the parsed start or now; its end is the parsed end or one hour after the start; both are in UTC |
| Routes.CompletedTitle | vapi_todo/routes.py:75 | the completed title is "COMPLETED: " followed by the to-do's title as Python renders it, so it is never empty |
| Routes.CompletedDescription | vapi_todo/routes.py:76 | the completed description is the old description (or the empty string) followed by exactly the status line |
| Routes.CompletedRelabel | vapi_todo/routes.py:73-77 | completing a to-do always relabels the remote title "COMPLETED: …" and replaces the description by the old one plus the status line; times and other fields are kept |
| Routes.ZuluToOffset | vapi_todo/routes.py:180 | each 'Z' becomes "+00:00" and every other character is kept; no 'Z' is left; a string without 'Z' is unchanged; the result is never shorter |
| Routes.ZuluToOffsetAppend | vapi_todo/routes.py:180 | the replacement works character by character, in order: it distributes over concatenation |
| Routes.EntryTimes | vapi_todo/routes.py:176-187 | a start is stored exactly when `event_from` is given and non-empty, and an end exactly when `event_to` is, whether or not it parses |
| Routes.EntryTimesFallback | vapi_todo/routes.py:176-187 | an absent or empty time is stored as None; a well-formed one as parsed; a malformed start as now; a malformed end as one hour after the start, or after now without a start |
| Routes.ParseEntryTimes | vapi_todo/routes.py:176-187 | the imperative parsing block yields exactly the times of the fallback rules |
| Routes.AbsentEndDiffersFromRemote | vapi_todo/routes.py:183-203 | a parsed start without `event_to` is stored with no end, while the remote event ends one hour after that start |
| Routes.EntryWithoutTimeBlocksListing | vapi_todo/routes.py:212-217 | one stored entry without a start or an end makes the whole listing fail validation |
| Routes.App.constructor | vapi_todo/models.py:5-27 | the application starts from an empty database (the three tables of the models, no rows), an empty trace and the invariant established |
| Routes.App.TryCreateEvent | vapi_todo/routes.py:33-43 | a remote create is requested iff the service is obtained; it yields the returned id on an answer and None otherwise (an exception is swallowed); the remote calendar gains the event, and the issued ids gain its id, exactly on an answer; an existing service is kept, and otherwise one is cached iff authentication succeeds; the invariant is kept |
| Routes.App.TryUpdateEvent | vapi_todo/routes.py:70-79 | a remote update is requested iff the service is obtained; the remote event becomes the merge exactly when fetch and write succeed; exceptions are swallowed; the service is cached as for a create; issued ids are unchanged |
| Routes.App.TryDeleteEvent | vapi_todo/routes.py:96-101 | a remote delete is requested iff the service is obtained; the remote calendar loses the event exactly when that request succeeds; exceptions are swallowed; the service is cached as for a create; issued ids are unchanged; the invariant is kept |
| Routes.App.InsertTodo | vapi_todo/routes.py:27-30 | the new to-do is committed under a fresh id, the next one, and the invariant is kept |
| Routes.App.BackFillTodo | vapi_todo/routes.py:39-41 | the to-do gets the back-reference and a second commit iff the returned id is truthy |
| Routes.App.CreateTodo | vapi_todo/routes.py:19-45 | always succeeds; the to-do is stored under a fresh id with a back-reference iff the remote insert returned a non-empty id; the local commit precedes the remote request; the remote calendar gains the to-do's event, and the issued ids its id, exactly on an answer; the service is cached afterwards iff one existed or authentication succeeds; other tables are untouched |
| Routes.App.GetTodos | vapi_todo/routes.py:47-52 | lists every to-do in its response shape, keyed by id, iff every to-do has a title; otherwise validation fails |
| Routes.App.CompleteTodo | vapi_todo/routes.py:54-81 | a missing or zero id gives 400 and an unknown id 404, both with no change; otherwise the to-do is marked completed and committed, then its remote event, if it has one, is relabelled through an update; the service is asked for only when there is a back-reference, and is otherwise left as it was; issued ids are unchanged; it succeeds whatever the remote outcome |
| Routes.App.DeleteTodo | vapi_todo/routes.py:83-105 | 400 / 404 as for completion; otherwise the remote event, if any, is deleted first, then the to-do is removed and committed; the service is asked for only when there is a back-reference; issued ids are unchanged; it succeeds whatever the remote outcome |
| Routes.App.InsertReminder | vapi_todo/routes.py:115-118 | the new reminder is committed under a fresh id, the next one, and the invariant is kept |
| Routes.App.BackFillReminder | vapi_todo/routes.py:127-129 | the reminder gets the back-reference and a second commit iff the returned id is truthy |
| Routes.App.AddReminder | vapi_todo/routes.py:107-133 | always succeeds; the reminder is stored under a fresh id with a back-reference iff the remote insert returned a non-empty id; commit before the remote request; the remote calendar gains the reminder's event, and the issued ids its id, exactly on an answer; the service is cached afterwards iff one existed or authentication succeeds |
| Routes.App.GetReminders | vapi_todo/routes.py:135-140 | lists every reminder in its response shape iff each has a text and an importance |
| Routes.App.DeleteReminder | vapi_todo/routes.py:142-164 | 400 / 404 with no change; otherwise a remote delete first, asked for only when there is a back-reference, then the local removal; the service is cached as for to-dos; issued ids are unchanged |
| Routes.App.InsertEntry | vapi_todo/routes.py:190-193 | the new entry is committed under a fresh id, the next one, and the invariant is kept |
| Routes.App.BackFillEntry | vapi_todo/routes.py:204-206 | the entry gets the back-reference and a second commit iff the returned id is truthy |
| Routes.App.AddCalendarEntry | vapi_todo/routes.py:166-210 | the entry is stored with the times of the fallback rules and a back-reference iff the remote insert returned a non-empty id; commit before the remote request; the remote calendar gains the entry's event, and the issued ids its id, exactly on an answer; the service is cached afterwards iff one existed or authentication succeeds |
| Routes.App.GetCalendarEntries | vapi_todo/routes.py:212-217 | lists every entry in its response shape iff each has a title, a start and an end |
| Routes.App.DeleteCalendarEntry | vapi_todo/routes.py:219-241 | 400 / 404 with no change; otherwise a remote delete first, asked for only when there is a back-reference, then the local removal; the service is cached as for to-dos; issued ids are unchanged |

## Left out

- HTTP mechanics are not modelled. This covers Flask routing, the JSON response envelope `{'results': [...]}` and the tool-call id it echoes.
- The handlers take their arguments already typed:
  - A text argument is `Option<string>` and a JSON null is `None`. A missing `title`, `description`, `reminder_text` or `importance` is `Some("")`, the `args.get(key, '')` default. A missing `event_from` or `event_to` is `None`, because those are read with `args.get(key)`.
  - An id is `Option<int>`: a missing key or null is `None`.
  - Arguments of other JSON kinds, such as a string id, are not modelled.
  - The handlers are not wired to `Helpers.GetValidatedToolCall`, which is modelled on its own.
- SQLAlchemy is reduced to maps keyed by id with one counter per table. Row objects, sessions and the database's own id reuse are not modelled. A failing commit is not modelled either.
- The list routes return rows keyed by id. The source's query has no ORDER BY, so row order is not modelled.
- JSON numbers are integers only; floats are not modelled.
- Date-times are integer seconds. `isoformat()`, time zones inside the parsed strings and naive/aware mixing are not modelled.
- Failures of the refresh request, of the interactive consent flow and of the token file write in `_authenticate` are not modelled. The unloadable token file and the rejected client file are modelled (`OtherException`).
- The clock is read once per handler: separate `utcnow()` readings that differ are not modelled.
- The base64 and pickle encoding of the token, and the printing of the token and of warnings, are not modelled.
- Concurrent requests racing on the `_calendar_service` global are not modelled.
- The `/readme` route (file rendering) and the `__main__` block of shared/google_calendar.py are not modelled.
- The `timezone` argument of `update_event` is accepted and never applied, in the source as in the model.
