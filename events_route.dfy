/** `GET /api/events`: the task table as calendar events. */
module EventsRoute {
  import opened JsonValue
  import opened Http
  import opened TaskModel
  import opened TasksRoute

  /** A calendar entry; `start` and `end` are the same instant. */
  datatype CalendarEvent = CalendarEvent(id: string, title: string, start: Timestamp, end: Timestamp)

  /** A task is placed on its due date, or on its creation date when it has none. */
  function EventOf(t: Task): CalendarEvent {
    var at := if t.dueDate.Some? then t.dueDate.value else t.createdAt;
    CalendarEvent(t.id, t.title, at, at)
  }

  /** `tasks.map(...)`: one event per row, in row order. */
  function CalendarEvents(tasks: seq<Task>): (r: seq<CalendarEvent>)
    ensures |r| == |tasks|
    ensures forall i :: 0 <= i < |tasks| ==>
      && r[i].id == tasks[i].id
      && r[i].title == tasks[i].title
      && r[i].start == r[i].end
      && (tasks[i].dueDate.Some? ==> r[i].start == tasks[i].dueDate.value)
      && (tasks[i].dueDate.None? ==> r[i].start == tasks[i].createdAt)
  {
    seq(|tasks|, i requires 0 <= i < |tasks| => EventOf(tasks[i]))
  }

  function EventJson(e: CalendarEvent, isoString: Timestamp -> string): Json {
    JObject([
      ("id", JString(e.id)),
      ("title", JString(e.title)),
      ("start", JString(isoString(e.start))),
      ("end", JString(isoString(e.end)))
    ])
  }

  function EventsJson(events: seq<CalendarEvent>, isoString: Timestamp -> string): (r: seq<Json>)
    ensures |r| == |events|
    ensures forall i :: 0 <= i < |events| ==> r[i] == EventJson(events[i], isoString)
  {
    seq(|events|, i requires 0 <= i < |events| => EventJson(events[i], isoString))
  }

  /** The handler: the events of every row, or 500 `{ error: 'Internal Server Error' }` when the query throws. */
  function EventsGet(db: DbResult<seq<Task>>, isoString: Timestamp -> string): (r: Response)
    ensures r.status == 200 <==> db.Rows?
    ensures db.DbFailed? ==> r == Response(500, ErrorBody("Internal Server Error"))
    ensures db.Rows? ==> r.body == JArray(EventsJson(CalendarEvents(db.rows), isoString))
  {
    match db
    case Rows(tasks) => Response(200, JArray(EventsJson(CalendarEvents(tasks), isoString)))
    case DbFailed(_) => Response(500, ErrorBody("Internal Server Error"))
  }

  /** Only a task's id, title, due date and creation date reach the calendar. */
  lemma {:induction false} EventIgnoresOtherFields(t: Task, u: Task)
    requires t.id == u.id && t.title == u.title && t.dueDate == u.dueDate && t.createdAt == u.createdAt
    ensures EventOf(t) == EventOf(u)
  {
  }
}
