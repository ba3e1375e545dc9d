/** The three local record kinds (vapi_todo/models.py). Every column except the
    primary key is nullable, so text columns are `Option<string>` and date-time
    columns `Option<int>` (seconds). The integer primary key is the key under
    which a table stores the record, see `Routes.App`. */
module Models {
  import opened Common

  datatype Todo = Todo(
    title: Option<string>,
    description: Option<string>,
    completed: bool,
    eventRef: Option<string>)   // google_calendar_event_id

  datatype Reminder = Reminder(
    reminderText: Option<string>,
    importance: Option<string>,
    eventRef: Option<string>)

  datatype CalendarEntry = CalendarEntry(
    title: Option<string>,
    description: Option<string>,
    eventFrom: Option<int>,
    eventTo: Option<int>,
    eventRef: Option<string>)

  /** `VapiTodo(title=..., description=...)`: the column defaults apply. */
  function NewTodo(title: Option<string>, description: Option<string>): (t: Todo)
    ensures t.title == title && t.description == description
    ensures !t.completed
    ensures t.eventRef.None?
  {
    Todo(title, description, false, None)
  }

  function NewReminder(text: Option<string>, importance: Option<string>): (r: Reminder)
    ensures r.reminderText == text && r.importance == importance
    ensures r.eventRef.None?
  {
    Reminder(text, importance, None)
  }

  function NewCalendarEntry(title: Option<string>, description: Option<string>,
                            eventFrom: Option<int>, eventTo: Option<int>): (e: CalendarEntry)
    ensures e.title == title && e.description == description
    ensures e.eventFrom == eventFrom && e.eventTo == eventTo
    ensures e.eventRef.None?
  {
    CalendarEntry(title, description, eventFrom, eventTo, None)
  }
}
