/** The tool-call routes of vapi_todo/routes.py. The create handlers and
    `complete_todo` commit their local change, then make a best-effort call
    to the remote calendar; the delete handlers make the best-effort remote
    delete first, then commit the removal; the list routes only read. No
    remote outcome ever prevents or undoes a local commit.

    The local tables and the ghost `trace` of commits and remote calls live in
    `App`; the remote calendar and the lazily built service live in the
    `Registry` that `App` holds. Every remote reply, the clock and the
    ISO-8601 parser are inputs of the handlers. */
module Routes {
  import opened Common
  import opened Schemas
  import opened Models
  import opened GoogleCalendar

  // ---------------------------------------------------------------------------
  // What the handlers answer, and the order of their effects
  // ---------------------------------------------------------------------------

  /** The handler's response: `'success'`, or `abort(status)`. */
  datatype RouteResult = Success | Aborted(status: int)

  /** A list route's result: every row in its response shape, or a server
      error when some row does not validate against that shape. */
  datatype Listing<T> = Listed(rows: map<int, T>) | ValidationFailed

  datatype Table = TodoTable | ReminderTable | EntryTable
  datatype Change = Inserted | BackFilled(eventId: string) | MarkedCompleted | Removed
  datatype RemoteOp = CreateOp | UpdateOp(eventId: string) | DeleteOp(eventId: string)

  /** One observable step of a handler: a local commit, or a request to the
      remote calendar service. */
  datatype Step = Commit(table: Table, id: int, change: Change) | RemoteCall(op: RemoteOp)

  /** Whether `get_calendar_service()` hands out a service: one exists
      already, or authenticating succeeds. */
  function Reached(hadService: bool, env: AuthEnv, granted: Creds): bool
  {
    hadService || AuthDecision(env, granted).Authorized?
  }

  /** The cached `_calendar_service` after a handler that asks for it
      (`attempted`) or does not: an existing service is kept, and without one a
      service exists afterwards exactly when it was asked for and
      authentication succeeds. */
  ghost predicate CachedAfter(before: CalendarService?, after: CalendarService?, attempted: bool,
                              env: AuthEnv, granted: Creds)
  {
    && (before != null ==> after == before)
    && (before == null ==> (after != null <==> attempted && AuthDecision(env, granted).Authorized?))
  }

  /** The back-reference a create leaves on its record: the id the remote
      create returned, only when that id is truthy. */
  function BackRef(reached: bool, insert: Reply<string>): (ref: Option<string>)
    ensures ref.Some? ==> reached && insert == Answer(ref.value) && ref.value != ""
    ensures reached && insert.Answer? && insert.value != "" ==> ref == Some(insert.value)
    ensures !reached || !insert.Answer? ==> ref.None?
  {
    if reached && insert.Answer? && insert.value != "" then Some(insert.value) else None
  }

  /** The steps of a create after its first commit. */
  function CreateSteps(table: Table, id: int, reached: bool, insert: Reply<string>): seq<Step>
  {
    (if reached then [RemoteCall(CreateOp)] else [])
    + (if BackRef(reached, insert).Some? then [Commit(table, id, BackFilled(insert.value))] else [])
  }

  /** A create's local commit precedes every remote request, and a back-fill
      commit, when there is one, comes last and carries the returned id. */
  lemma CreateCommitsFirst(table: Table, id: int, reached: bool, insert: Reply<string>)
    ensures var steps := [Commit(table, id, Inserted)] + CreateSteps(table, id, reached, insert);
            && steps[0] == Commit(table, id, Inserted)
            && (forall i :: 0 <= i < |steps| && steps[i].RemoteCall? ==> i == 1)
            && (|steps| == 3 <==> BackRef(reached, insert).Some?)
            && (|steps| == 3 ==> steps[2] == Commit(table, id, BackFilled(BackRef(reached, insert).value)))
  {
  }

  // ---------------------------------------------------------------------------
  // Remote templates
  // ---------------------------------------------------------------------------

  /** The remote event a new to-do asks for. */
  function TodoEvent(title: Option<string>, description: Option<string>, now: int): (e: RemoteEvent)
    ensures e.summary == Some("TODO: " + Show(title))
    ensures e.description == Some(if Truthy(description) then description.value else "Task from VAPI Todo System")
    ensures e.start == Slot(now, "UTC") && e.end == Slot(now + HOUR, "UTC")
  {
    NewEventBody(Some("TODO: " + Show(title)), Some(Or(description, "Task from VAPI Todo System")), None, None, "UTC", now)
  }

  /** The remote event a new reminder asks for. */
  function ReminderEvent(text: Option<string>, importance: Option<string>, now: int): (e: RemoteEvent)
    ensures e.summary == Some("REMINDER: " + Show(text))
    ensures e.description == Some("Importance: " + Show(importance) + "\nReminder from VAPI Todo System")
    ensures e.start == Slot(now, "UTC") && e.end == Slot(now + HOUR, "UTC")
  {
    NewEventBody(Some("REMINDER: " + Show(text)),
                 Some("Importance: " + Show(importance) + "\nReminder from VAPI Todo System"), None, None, "UTC", now)
  }

  /** The remote event a new calendar entry asks for: its own title and the
      parsed times, with the service's defaults where a time is missing. */
  function EntryEvent(title: Option<string>, description: Option<string>,
                      from: Option<int>, to: Option<int>, now: int): (e: RemoteEvent)
    ensures e.summary == title
    ensures e.description == Some(if Truthy(description) then description.value else "Event from VAPI Todo System")
    ensures e.start.dateTime == (if from.Some? then from.value else now)
    ensures e.end.dateTime == (if to.Some? then to.value else e.start.dateTime + HOUR)
    ensures e.start.timeZone == "UTC" && e.end.timeZone == "UTC"
  {
    NewEventBody(title, Some(Or(description, "Event from VAPI Todo System")), from, to, "UTC", now)
  }

  /** The title and description `complete_todo` pushes to the remote event. */
  function CompletedTitle(t: Todo): (r: string)
    // never empty, so `update_event` always applies it
    ensures "COMPLETED: " <= r && r != ""
    ensures r[|"COMPLETED: "|..] == Show(t.title)
  {
    "COMPLETED: " + Show(t.title)
  }

  function CompletedDescription(t: Todo): (r: string)
    // the old description (or ""), followed by the status line
    ensures Or(t.description, "") <= r
    ensures |r| == |Or(t.description, "")| + |"\n\nStatus: Completed"|
    ensures r[|Or(t.description, "")|..] == "\n\nStatus: Completed"
  {
    Or(t.description, "") + "\n\nStatus: Completed"
  }

  /** Completing a to-do always relabels the remote title (the label is never
      empty) and replaces the description by the old one plus a status line. */
  lemma CompletedRelabel(ev: RemoteEvent, t: Todo)
    ensures var merged := Merge(ev, Some(CompletedTitle(t)), Some(CompletedDescription(t)), None, None);
            && merged.summary == Some("COMPLETED: " + Show(t.title))
            && merged.description == Some(Or(t.description, "") + "\n\nStatus: Completed")
            && merged.start == ev.start && merged.end == ev.end && merged.extras == ev.extras
  {
  }

  // ---------------------------------------------------------------------------
  // Time fallback of add_calendar_entry
  // ---------------------------------------------------------------------------

  /** `s.replace('Z', '+00:00')`. */
  function ZuluToOffset(s: string): (r: string)
    ensures forall i :: 0 <= i < |r| ==> r[i] != 'Z'
    ensures (forall i :: 0 <= i < |s| ==> s[i] != 'Z') ==> r == s
    ensures |r| >= |s|
    // a single character: 'Z' becomes "+00:00", any other is kept
    ensures |s| == 1 ==> r == (if s[0] == 'Z' then "+00:00" else s)
  {
    if s == [] then []
    else (if s[0] == 'Z' then "+00:00" else [s[0]]) + ZuluToOffset(s[1..])
  }

  /** The replacement works character by character, in order: it distributes
      over concatenation. */
  lemma {:induction false} ZuluToOffsetAppend(a: string, b: string)
    ensures ZuluToOffset(a + b) == ZuluToOffset(a) + ZuluToOffset(b)
  {
    if a == [] {
      assert a + b == b;
    } else {
      assert (a + b)[0] == a[0];
      assert (a + b)[1..] == a[1..] + b;
      ZuluToOffsetAppend(a[1..], b);
    }
  }

  /** The start and end that `add_calendar_entry` stores. `iso` is
      `datetime.fromisoformat` (`None`: it raised) and `now` is `utcnow()`. */
  function EntryTimes(eventFrom: Option<string>, eventTo: Option<string>, now: int,
                      iso: string -> Option<int>): (r: (Option<int>, Option<int>))
    // a value that is given (non-empty) is always stored, parsed or not
    ensures r.0.Some? <==> Truthy(eventFrom)
    ensures r.1.Some? <==> Truthy(eventTo)
  {
    var start :=
      if !Truthy(eventFrom) then None
      else match iso(ZuluToOffset(eventFrom.value))
        case Some(t) => Some(t)
        case None => Some(now);
    var end :=
      if !Truthy(eventTo) then None
      else match iso(ZuluToOffset(eventTo.value))
        case Some(t) => Some(t)
        case None => Some((if start.Some? then start.value else now) + HOUR);
    (start, end)
  }

  /** The parsing block of `add_calendar_entry`, reassigning its two locals. */
  method ParseEntryTimes(eventFrom: Option<string>, eventTo: Option<string>, now: int, iso: string -> Option<int>)
    returns (startTime: Option<int>, endTime: Option<int>)
    ensures (startTime, endTime) == EntryTimes(eventFrom, eventTo, now, iso)
  {
    startTime := None;
    endTime := None;
    if Truthy(eventFrom) {
      startTime := iso(ZuluToOffset(eventFrom.value));
      if startTime.None? {
        startTime := Some(now);
      }
    }
    if Truthy(eventTo) {
      endTime := iso(ZuluToOffset(eventTo.value));
      if endTime.None? {
        endTime := if startTime.Some? then Some(startTime.value + HOUR) else Some(now + HOUR);
      }
    }
  }

  /** The fallback rules of the parsing block. */
  lemma EntryTimesFallback(eventFrom: Option<string>, eventTo: Option<string>, now: int,
                           iso: string -> Option<int>, start: Option<int>, end: Option<int>)
    requires (start, end) == EntryTimes(eventFrom, eventTo, now, iso)
    // an absent (or empty) value is stored as None
    ensures !Truthy(eventFrom) ==> start.None?
    ensures !Truthy(eventTo) ==> end.None?
    // a well-formed value is stored as parsed
    ensures Truthy(eventFrom) && iso(ZuluToOffset(eventFrom.value)).Some? ==> start == iso(ZuluToOffset(eventFrom.value))
    ensures Truthy(eventTo) && iso(ZuluToOffset(eventTo.value)).Some? ==> end == iso(ZuluToOffset(eventTo.value))
    // a malformed start becomes now
    ensures Truthy(eventFrom) && iso(ZuluToOffset(eventFrom.value)).None? ==> start == Some(now)
    // a malformed end becomes one hour after the start, or after now without a start
    ensures Truthy(eventTo) && iso(ZuluToOffset(eventTo.value)).None? ==>
              end == Some((if start.Some? then start.value else now) + HOUR)
  {
  }

  /** A start with no `event_to` is stored with no end, while the remote event
      gets an end one hour after that start. */
  lemma AbsentEndDiffersFromRemote(title: Option<string>, description: Option<string>, eventFrom: string,
                                   now: int, iso: string -> Option<int>, t: int)
    requires eventFrom != "" && iso(ZuluToOffset(eventFrom)) == Some(t)
    ensures var times := EntryTimes(Some(eventFrom), None, now, iso);
            && times == (Some(t), None)
            && EntryEvent(title, description, times.0, times.1, now).end.dateTime == t + HOUR
  {
  }

  // ---------------------------------------------------------------------------
  // Response shapes of the list routes
  // ---------------------------------------------------------------------------

  /** Ids are handed out from `next` upwards and never fall below 1. */
  ghost predicate IdsBelow(keys: set<int>, next: int)
  {
    1 <= next && forall k :: k in keys ==> 1 <= k < next
  }

  /** Every back-reference in a table is an id some remote create returned. */
  ghost predicate TodoRefsIssued(rows: map<int, Todo>, issued: set<string>)
  {
    forall k :: k in rows && rows[k].eventRef.Some? ==> rows[k].eventRef.value in issued
  }

  ghost predicate ReminderRefsIssued(rows: map<int, Reminder>, issued: set<string>)
  {
    forall k :: k in rows && rows[k].eventRef.Some? ==> rows[k].eventRef.value in issued
  }

  ghost predicate EntryRefsIssued(rows: map<int, CalendarEntry>, issued: set<string>)
  {
    forall k :: k in rows && rows[k].eventRef.Some? ==> rows[k].eventRef.value in issued
  }

  // ---------------------------------------------------------------------------
  // The application state and the handlers
  // ---------------------------------------------------------------------------

  class App {
    var todos: map<int, Todo>
    var reminders: map<int, Reminder>
    var entries: map<int, CalendarEntry>
    var nextTodo: int
    var nextReminder: int
    var nextEntry: int
    const registry: Registry
    ghost var trace: seq<Step>

    /** The tables' ids stay below their counters, and every back-reference is
        an id a remote create returned. */
    ghost predicate Valid()
      reads this, registry, registry.calendar
    {
      && registry.Valid()
      && IdsBelow(todos.Keys, nextTodo)
      && IdsBelow(reminders.Keys, nextReminder)
      && IdsBelow(entries.Keys, nextEntry)
      && TodoRefsIssued(todos, registry.calendar.issued)
      && ReminderRefsIssued(reminders, registry.calendar.issued)
      && EntryRefsIssued(entries, registry.calendar.issued)
    }

    constructor (registry: Registry)
      requires registry.Valid()
      ensures Valid() && this.registry == registry
      ensures todos == map[] && reminders == map[] && entries == map[] && trace == []
    {
      todos, reminders, entries := map[], map[], map[];
      nextTodo, nextReminder, nextEntry := 1, 1, 1;
      this.registry := registry;
      trace := [];
    }

    // --- the remote leg shared by the handlers --------------------------------

    /** The `try` block around `create_event` in every create handler: obtain
        the service, ask for the event, and yield what `create_event` returned;
        any exception ends here and yields `None`. */
    method TryCreateEvent(title: Option<string>, description: Option<string>, start: Option<int>, end: Option<int>,
                          now: int, env: AuthEnv, granted: Creds, insert: Reply<string>)
      returns (created: Option<string>)
      requires Valid()
      modifies this`trace, registry, registry.calendar
      ensures Valid()
      ensures var reached := Reached(old(registry.instance) != null, env, granted);
              && created == (if reached && insert.Answer? then Some(insert.value) else None)
              && trace == old(trace) + (if reached then [RemoteCall(CreateOp)] else [])
              && registry.calendar.events ==
                   (if reached && insert.Answer?
                    then old(registry.calendar.events)[insert.value := NewEventBody(title, description, start, end, "UTC", now)]
                    else old(registry.calendar.events))
      ensures created.Some? ==> created.value in registry.calendar.issued
      ensures CachedAfter(old(registry.instance), registry.instance, true, env, granted)
      ensures registry.calendar.issued ==
                old(registry.calendar.issued)
                + (if Reached(old(registry.instance) != null, env, granted) && insert.Answer? then {insert.value} else {})
    {
      created := None;
      var service := registry.GetCalendarService(env, granted);
      if service.Returned? {
        trace := trace + [RemoteCall(CreateOp)];
        var result := service.value.CreateEvent(title, description, start, end, "UTC", now, insert);
        if result.Returned? {
          created := result.value;
        }
      }
    }

    /** The `try` block around `delete_event` in every delete handler. */
    method TryDeleteEvent(ref: string, env: AuthEnv, granted: Creds, remove: Reply<()>)
      requires Valid()
      modifies this`trace, registry, registry.calendar
      ensures Valid()
      ensures var reached := Reached(old(registry.instance) != null, env, granted);
              && trace == old(trace) + (if reached then [RemoteCall(DeleteOp(ref))] else [])
              && registry.calendar.events ==
                   (if reached then AfterDelete(old(registry.calendar.events), ref, remove)
                    else old(registry.calendar.events))
      ensures CachedAfter(old(registry.instance), registry.instance, true, env, granted)
      ensures registry.calendar.issued == old(registry.calendar.issued)
    {
      var service := registry.GetCalendarService(env, granted);
      if service.Returned? {
        trace := trace + [RemoteCall(DeleteOp(ref))];
        var deleted := service.value.DeleteEvent(ref, remove);
      }
    }

    /** The `try` block around `update_event` in `complete_todo`. */
    method TryUpdateEvent(ref: string, title: Option<string>, description: Option<string>,
                          env: AuthEnv, granted: Creds, fetch: Reply<()>, write: Reply<()>)
      requires Valid()
      modifies this`trace, registry, registry.calendar
      ensures Valid()
      ensures var reached := Reached(old(registry.instance) != null, env, granted);
              && trace == old(trace) + (if reached then [RemoteCall(UpdateOp(ref))] else [])
              && registry.calendar.events ==
                   (if reached then AfterUpdate(old(registry.calendar.events), ref, title, description, None, None, fetch, write)
                    else old(registry.calendar.events))
      ensures CachedAfter(old(registry.instance), registry.instance, true, env, granted)
      ensures registry.calendar.issued == old(registry.calendar.issued)
    {
      var service := registry.GetCalendarService(env, granted);
      if service.Returned? {
        trace := trace + [RemoteCall(UpdateOp(ref))];
        var updated := service.value.UpdateEvent(ref, title, description, None, None, "UTC", fetch, write);
      }
    }

    // --- to-dos -------------------------------------------------------------

    /** The first commit of `create_todo`: the new row under the next id. */
    method InsertTodo(row: Todo) returns (id: int)
      requires Valid() && row.eventRef.None?
      modifies this`todos, this`nextTodo, this`trace
      ensures Valid()
      ensures id == old(nextTodo) && id !in old(todos) && todos == old(todos)[id := row]
      ensures trace == old(trace) + [Commit(TodoTable, id, Inserted)]
    {
      id := nextTodo;
      nextTodo := nextTodo + 1;
      todos := todos[id := row];
      trace := trace + [Commit(TodoTable, id, Inserted)];
    }

    /** The second commit of `create_todo`, made only when the remote create returned
        a truthy event id. */
    method BackFillTodo(id: int, created: Option<string>)
      requires Valid() && id in todos
      requires Truthy(created) ==> created.value in registry.calendar.issued
      modifies this`todos, this`trace
      ensures Valid()
      ensures todos == if Truthy(created) then old(todos)[id := old(todos)[id].(eventRef := created)] else old(todos)
      ensures trace == old(trace) + (if Truthy(created) then [Commit(TodoTable, id, BackFilled(created.value))] else [])
    {
      if Truthy(created) {
        todos := todos[id := todos[id].(eventRef := created)];
        trace := trace + [Commit(TodoTable, id, BackFilled(created.value))];
      }
    }

    /** `create_todo`. */
    method CreateTodo(title: Option<string>, description: Option<string>, now: int,
                      env: AuthEnv, granted: Creds, insert: Reply<string>) returns (r: RouteResult)
      requires Valid()
      modifies this, registry, registry.calendar
      ensures Valid() && r == Success
      ensures var id := old(nextTodo);
              var reached := Reached(old(registry.instance) != null, env, granted);
              && id !in old(todos)
              && todos == old(todos)[id := NewTodo(title, description).(eventRef := BackRef(reached, insert))]
              && trace == old(trace) + [Commit(TodoTable, id, Inserted)] + CreateSteps(TodoTable, id, reached, insert)
              && registry.calendar.events ==
                   (if reached && insert.Answer?
                    then old(registry.calendar.events)[insert.value := TodoEvent(title, description, now)]
                    else old(registry.calendar.events))
      ensures reminders == old(reminders) && entries == old(entries)
      ensures nextReminder == old(nextReminder) && nextEntry == old(nextEntry)
      ensures CachedAfter(old(registry.instance), registry.instance, true, env, granted)
      ensures registry.calendar.issued ==
                old(registry.calendar.issued)
                + (if Reached(old(registry.instance) != null, env, granted) && insert.Answer? then {insert.value} else {})
    {
      var id := InsertTodo(NewTodo(title, description));
      ghost var reached := Reached(old(registry.instance) != null, env, granted);
      var created := TryCreateEvent(Some("TODO: " + Show(title)), Some(Or(description, "Task from VAPI Todo System")),
                                    None, None, now, env, granted, insert);
      BackFillTodo(id, created);
      if Truthy(created) {
        assert CreateSteps(TodoTable, id, reached, insert) == [RemoteCall(CreateOp), Commit(TodoTable, id, BackFilled(created.value))];
      } else {
        assert CreateSteps(TodoTable, id, reached, insert) == (if reached then [RemoteCall(CreateOp)] else []);
      }
      r := Success;
    }

    /** `get_todos`: every to-do in its response shape; nothing is changed. */
    function GetTodos(): (r: Listing<TodoResponse>)
      reads this
      ensures r.Listed? <==> forall k :: k in todos ==> todos[k].title.Some?
      ensures r.Listed? ==> r.rows.Keys == todos.Keys
      ensures r.Listed? ==> forall k :: k in todos ==>
                r.rows[k] == TodoResponse(k, todos[k].title.value, todos[k].description, todos[k].completed)
    {
      if forall k :: k in todos ==> todos[k].title.Some? then
        Listed(map k | k in todos :: TodoResponse(k, todos[k].title.value, todos[k].description, todos[k].completed))
      else ValidationFailed
    }

    /** `complete_todo`. */
    method CompleteTodo(id: Option<int>, env: AuthEnv, granted: Creds, fetch: Reply<()>, write: Reply<()>)
      returns (r: RouteResult)
      requires Valid()
      modifies this, registry, registry.calendar
      ensures Valid()
      ensures id.None? || id.value == 0 ==> r == Aborted(400)
      ensures id.Some? && id.value != 0 && id.value !in old(todos) ==> r == Aborted(404)
      ensures r.Success? <==> id.Some? && id.value in old(todos)
      ensures r.Aborted? ==> unchanged(this, registry, registry.calendar)
      ensures r.Success? ==>
                var k := id.value;
                var t := old(todos)[k];
                var reached := Truthy(t.eventRef) && Reached(old(registry.instance) != null, env, granted);
                && todos == old(todos)[k := t.(completed := true)]
                && trace == old(trace) + [Commit(TodoTable, k, MarkedCompleted)]
                            + (if reached then [RemoteCall(UpdateOp(t.eventRef.value))] else [])
                && registry.calendar.events ==
                     (if reached
                      then AfterUpdate(old(registry.calendar.events), t.eventRef.value,
                                       Some(CompletedTitle(t)), Some(CompletedDescription(t)), None, None, fetch, write)
                      else old(registry.calendar.events))
      ensures reminders == old(reminders) && entries == old(entries)
      ensures nextTodo == old(nextTodo) && nextReminder == old(nextReminder) && nextEntry == old(nextEntry)
      ensures r.Success? ==>
                CachedAfter(old(registry.instance), registry.instance, Truthy(old(todos)[id.value].eventRef), env, granted)
      ensures registry.calendar.issued == old(registry.calendar.issued)
    {
      if id.None? || id.value == 0 {
        return Aborted(400);
      }
      var k := id.value;
      if k !in todos {
        return Aborted(404);
      }
      todos := todos[k := todos[k].(completed := true)];
      trace := trace + [Commit(TodoTable, k, MarkedCompleted)];
      var t := todos[k];
      if Truthy(t.eventRef) {
        TryUpdateEvent(t.eventRef.value, Some(CompletedTitle(t)), Some(CompletedDescription(t)), env, granted, fetch, write);
      }
      r := Success;
    }

    /** `delete_todo`. */
    method DeleteTodo(id: Option<int>, env: AuthEnv, granted: Creds, remove: Reply<()>) returns (r: RouteResult)
      requires Valid()
      modifies this, registry, registry.calendar
      ensures Valid()
      ensures id.None? || id.value == 0 ==> r == Aborted(400)
      ensures id.Some? && id.value != 0 && id.value !in old(todos) ==> r == Aborted(404)
      ensures r.Success? <==> id.Some? && id.value in old(todos)
      ensures r.Aborted? ==> unchanged(this, registry, registry.calendar)
      ensures r.Success? ==>
                var k := id.value;
                var ref := old(todos)[k].eventRef;
                var reached := Truthy(ref) && Reached(old(registry.instance) != null, env, granted);
                && todos == old(todos) - {k}
                && trace == old(trace) + (if reached then [RemoteCall(DeleteOp(ref.value))] else [])
                            + [Commit(TodoTable, k, Removed)]
                && registry.calendar.events ==
                     (if reached then AfterDelete(old(registry.calendar.events), ref.value, remove)
                      else old(registry.calendar.events))
      ensures reminders == old(reminders) && entries == old(entries)
      ensures nextTodo == old(nextTodo) && nextReminder == old(nextReminder) && nextEntry == old(nextEntry)
      ensures r.Success? ==>
                CachedAfter(old(registry.instance), registry.instance, Truthy(old(todos)[id.value].eventRef), env, granted)
      ensures registry.calendar.issued == old(registry.calendar.issued)
    {
      if id.None? || id.value == 0 {
        return Aborted(400);
      }
      var k := id.value;
      if k !in todos {
        return Aborted(404);
      }
      var ref := todos[k].eventRef;
      if Truthy(ref) {
        TryDeleteEvent(ref.value, env, granted, remove);
      }
      todos := todos - {k};
      trace := trace + [Commit(TodoTable, k, Removed)];
      r := Success;
    }

    // --- reminders ----------------------------------------------------------

    /** The first commit of `add_reminder`: the new row under the next id. */
    method InsertReminder(row: Reminder) returns (id: int)
      requires Valid() && row.eventRef.None?
      modifies this`reminders, this`nextReminder, this`trace
      ensures Valid()
      ensures id == old(nextReminder) && id !in old(reminders) && reminders == old(reminders)[id := row]
      ensures trace == old(trace) + [Commit(ReminderTable, id, Inserted)]
    {
      id := nextReminder;
      nextReminder := nextReminder + 1;
      reminders := reminders[id := row];
      trace := trace + [Commit(ReminderTable, id, Inserted)];
    }

    /** The second commit of `add_reminder`, made only when the remote create returned
        a truthy event id. */
    method BackFillReminder(id: int, created: Option<string>)
      requires Valid() && id in reminders
      requires Truthy(created) ==> created.value in registry.calendar.issued
      modifies this`reminders, this`trace
      ensures Valid()
      ensures reminders == if Truthy(created) then old(reminders)[id := old(reminders)[id].(eventRef := created)] else old(reminders)
      ensures trace == old(trace) + (if Truthy(created) then [Commit(ReminderTable, id, BackFilled(created.value))] else [])
    {
      if Truthy(created) {
        reminders := reminders[id := reminders[id].(eventRef := created)];
        trace := trace + [Commit(ReminderTable, id, BackFilled(created.value))];
      }
    }

    /** `add_reminder`. */
    method AddReminder(text: Option<string>, importance: Option<string>, now: int,
                       env: AuthEnv, granted: Creds, insert: Reply<string>) returns (r: RouteResult)
      requires Valid()
      modifies this, registry, registry.calendar
      ensures Valid() && r == Success
      ensures var id := old(nextReminder);
              var reached := Reached(old(registry.instance) != null, env, granted);
              && id !in old(reminders)
              && reminders == old(reminders)[id := NewReminder(text, importance).(eventRef := BackRef(reached, insert))]
              && trace == old(trace) + [Commit(ReminderTable, id, Inserted)] + CreateSteps(ReminderTable, id, reached, insert)
              && registry.calendar.events ==
                   (if reached && insert.Answer?
                    then old(registry.calendar.events)[insert.value := ReminderEvent(text, importance, now)]
                    else old(registry.calendar.events))
      ensures todos == old(todos) && entries == old(entries)
      ensures nextTodo == old(nextTodo) && nextEntry == old(nextEntry)
      ensures CachedAfter(old(registry.instance), registry.instance, true, env, granted)
      ensures registry.calendar.issued ==
                old(registry.calendar.issued)
                + (if Reached(old(registry.instance) != null, env, granted) && insert.Answer? then {insert.value} else {})
    {
      var id := InsertReminder(NewReminder(text, importance));
      ghost var reached := Reached(old(registry.instance) != null, env, granted);
      var created := TryCreateEvent(Some("REMINDER: " + Show(text)),
                                    Some("Importance: " + Show(importance) + "\nReminder from VAPI Todo System"),
                                    None, None, now, env, granted, insert);
      BackFillReminder(id, created);
      if Truthy(created) {
        assert CreateSteps(ReminderTable, id, reached, insert) == [RemoteCall(CreateOp), Commit(ReminderTable, id, BackFilled(created.value))];
      } else {
        assert CreateSteps(ReminderTable, id, reached, insert) == (if reached then [RemoteCall(CreateOp)] else []);
      }
      r := Success;
    }

    /** `get_reminders`. */
    function GetReminders(): (r: Listing<ReminderResponse>)
      reads this
      ensures r.Listed? <==> forall k :: k in reminders ==>
                reminders[k].reminderText.Some? && reminders[k].importance.Some?
      ensures r.Listed? ==> r.rows.Keys == reminders.Keys
      ensures r.Listed? ==> forall k :: k in reminders ==>
                r.rows[k] == ReminderResponse(k, reminders[k].reminderText.value, reminders[k].importance.value)
    {
      if forall k :: k in reminders ==> reminders[k].reminderText.Some? && reminders[k].importance.Some? then
        Listed(map k | k in reminders :: ReminderResponse(k, reminders[k].reminderText.value, reminders[k].importance.value))
      else ValidationFailed
    }

    /** `delete_reminder`. */
    method DeleteReminder(id: Option<int>, env: AuthEnv, granted: Creds, remove: Reply<()>) returns (r: RouteResult)
      requires Valid()
      modifies this, registry, registry.calendar
      ensures Valid()
      ensures id.None? || id.value == 0 ==> r == Aborted(400)
      ensures id.Some? && id.value != 0 && id.value !in old(reminders) ==> r == Aborted(404)
      ensures r.Success? <==> id.Some? && id.value in old(reminders)
      ensures r.Aborted? ==> unchanged(this, registry, registry.calendar)
      ensures r.Success? ==>
                var k := id.value;
                var ref := old(reminders)[k].eventRef;
                var reached := Truthy(ref) && Reached(old(registry.instance) != null, env, granted);
                && reminders == old(reminders) - {k}
                && trace == old(trace) + (if reached then [RemoteCall(DeleteOp(ref.value))] else [])
                            + [Commit(ReminderTable, k, Removed)]
                && registry.calendar.events ==
                     (if reached then AfterDelete(old(registry.calendar.events), ref.value, remove)
                      else old(registry.calendar.events))
      ensures todos == old(todos) && entries == old(entries)
      ensures nextTodo == old(nextTodo) && nextReminder == old(nextReminder) && nextEntry == old(nextEntry)
      ensures r.Success? ==>
                CachedAfter(old(registry.instance), registry.instance, Truthy(old(reminders)[id.value].eventRef), env, granted)
      ensures registry.calendar.issued == old(registry.calendar.issued)
    {
      if id.None? || id.value == 0 {
        return Aborted(400);
      }
      var k := id.value;
      if k !in reminders {
        return Aborted(404);
      }
      var ref := reminders[k].eventRef;
      if Truthy(ref) {
        TryDeleteEvent(ref.value, env, granted, remove);
      }
      reminders := reminders - {k};
      trace := trace + [Commit(ReminderTable, k, Removed)];
      r := Success;
    }

    // --- calendar entries ---------------------------------------------------

    /** The first commit of `add_calendar_entry`: the new row under the next id. */
    method InsertEntry(row: CalendarEntry) returns (id: int)
      requires Valid() && row.eventRef.None?
      modifies this`entries, this`nextEntry, this`trace
      ensures Valid()
      ensures id == old(nextEntry) && id !in old(entries) && entries == old(entries)[id := row]
      ensures trace == old(trace) + [Commit(EntryTable, id, Inserted)]
    {
      id := nextEntry;
      nextEntry := nextEntry + 1;
      entries := entries[id := row];
      trace := trace + [Commit(EntryTable, id, Inserted)];
    }

    /** The second commit of `add_calendar_entry`, made only when the remote create returned
        a truthy event id. */
    method BackFillEntry(id: int, created: Option<string>)
      requires Valid() && id in entries
      requires Truthy(created) ==> created.value in registry.calendar.issued
      modifies this`entries, this`trace
      ensures Valid()
      ensures entries == if Truthy(created) then old(entries)[id := old(entries)[id].(eventRef := created)] else old(entries)
      ensures trace == old(trace) + (if Truthy(created) then [Commit(EntryTable, id, BackFilled(created.value))] else [])
    {
      if Truthy(created) {
        entries := entries[id := entries[id].(eventRef := created)];
        trace := trace + [Commit(EntryTable, id, BackFilled(created.value))];
      }
    }

    /** `add_calendar_entry`. */
    method AddCalendarEntry(title: Option<string>, description: Option<string>,
                            eventFrom: Option<string>, eventTo: Option<string>,
                            now: int, iso: string -> Option<int>,
                            env: AuthEnv, granted: Creds, insert: Reply<string>) returns (r: RouteResult)
      requires Valid()
      modifies this, registry, registry.calendar
      ensures Valid() && r == Success
      ensures var id := old(nextEntry);
              var times := EntryTimes(eventFrom, eventTo, now, iso);
              var reached := Reached(old(registry.instance) != null, env, granted);
              && id !in old(entries)
              && entries == old(entries)[id := NewCalendarEntry(title, description, times.0, times.1)
                                                 .(eventRef := BackRef(reached, insert))]
              && trace == old(trace) + [Commit(EntryTable, id, Inserted)] + CreateSteps(EntryTable, id, reached, insert)
              && registry.calendar.events ==
                   (if reached && insert.Answer?
                    then old(registry.calendar.events)[insert.value := EntryEvent(title, description, times.0, times.1, now)]
                    else old(registry.calendar.events))
      ensures todos == old(todos) && reminders == old(reminders)
      ensures nextTodo == old(nextTodo) && nextReminder == old(nextReminder)
      ensures CachedAfter(old(registry.instance), registry.instance, true, env, granted)
      ensures registry.calendar.issued ==
                old(registry.calendar.issued)
                + (if Reached(old(registry.instance) != null, env, granted) && insert.Answer? then {insert.value} else {})
    {
      var startTime, endTime := ParseEntryTimes(eventFrom, eventTo, now, iso);
      var id := InsertEntry(NewCalendarEntry(title, description, startTime, endTime));
      ghost var reached := Reached(old(registry.instance) != null, env, granted);
      var created := TryCreateEvent(title, Some(Or(description, "Event from VAPI Todo System")),
                                    startTime, endTime, now, env, granted, insert);
      BackFillEntry(id, created);
      if Truthy(created) {
        assert CreateSteps(EntryTable, id, reached, insert) == [RemoteCall(CreateOp), Commit(EntryTable, id, BackFilled(created.value))];
      } else {
        assert CreateSteps(EntryTable, id, reached, insert) == (if reached then [RemoteCall(CreateOp)] else []);
      }
      r := Success;
    }

    /** `get_calendar_entries`: an entry validates only with a title and both
        date-times. */
    function GetCalendarEntries(): (r: Listing<CalendarEventResponse>)
      reads this
      ensures r.Listed? <==> forall k :: k in entries ==>
                entries[k].title.Some? && entries[k].eventFrom.Some? && entries[k].eventTo.Some?
      ensures r.Listed? ==> r.rows.Keys == entries.Keys
      ensures r.Listed? ==> forall k :: k in entries ==>
                r.rows[k] == CalendarEventResponse(k, entries[k].title.value, entries[k].description,
                                                   entries[k].eventFrom.value, entries[k].eventTo.value)
    {
      if forall k :: k in entries ==> entries[k].title.Some? && entries[k].eventFrom.Some? && entries[k].eventTo.Some? then
        Listed(map k | k in entries :: CalendarEventResponse(k, entries[k].title.value, entries[k].description,
                                                              entries[k].eventFrom.value, entries[k].eventTo.value))
      else ValidationFailed
    }

    /** `delete_calendar_entry`. */
    method DeleteCalendarEntry(id: Option<int>, env: AuthEnv, granted: Creds, remove: Reply<()>)
      returns (r: RouteResult)
      requires Valid()
      modifies this, registry, registry.calendar
      ensures Valid()
      ensures id.None? || id.value == 0 ==> r == Aborted(400)
      ensures id.Some? && id.value != 0 && id.value !in old(entries) ==> r == Aborted(404)
      ensures r.Success? <==> id.Some? && id.value in old(entries)
      ensures r.Aborted? ==> unchanged(this, registry, registry.calendar)
      ensures r.Success? ==>
                var k := id.value;
                var ref := old(entries)[k].eventRef;
                var reached := Truthy(ref) && Reached(old(registry.instance) != null, env, granted);
                && entries == old(entries) - {k}
                && trace == old(trace) + (if reached then [RemoteCall(DeleteOp(ref.value))] else [])
                            + [Commit(EntryTable, k, Removed)]
                && registry.calendar.events ==
                     (if reached then AfterDelete(old(registry.calendar.events), ref.value, remove)
                      else old(registry.calendar.events))
      ensures todos == old(todos) && reminders == old(reminders)
      ensures nextTodo == old(nextTodo) && nextReminder == old(nextReminder) && nextEntry == old(nextEntry)
      ensures r.Success? ==>
                CachedAfter(old(registry.instance), registry.instance, Truthy(old(entries)[id.value].eventRef), env, granted)
      ensures registry.calendar.issued == old(registry.calendar.issued)
    {
      if id.None? || id.value == 0 {
        return Aborted(400);
      }
      var k := id.value;
      if k !in entries {
        return Aborted(404);
      }
      var ref := entries[k].eventRef;
      if Truthy(ref) {
        TryDeleteEvent(ref.value, env, granted, remove);
      }
      entries := entries - {k};
      trace := trace + [Commit(EntryTable, k, Removed)];
      r := Success;
    }
  }

  /** An entry stored without a start or an end (an absent `event_from` or
      `event_to`) makes `get_calendar_entries` fail validation for as long as
      that row exists. */
  lemma EntryWithoutTimeBlocksListing(app: App, k: int)
    requires k in app.entries && (app.entries[k].eventFrom.None? || app.entries[k].eventTo.None?)
    ensures app.GetCalendarEntries() == ValidationFailed
  {
  }
}
