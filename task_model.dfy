/** The task record, its enumerations, and its JSON form. */
module TaskModel {
  import opened Wrappers
  import opened JsonValue

  /** Milliseconds since the epoch; calendar arithmetic and ISO text are outside the model. */
  type Timestamp = int

  datatype Priority = Low | Medium | High | Urgent
  datatype Status = Todo | InProgress | Completed

  function PriorityName(p: Priority): string {
    match p
    case Low => "LOW"
    case Medium => "MEDIUM"
    case High => "HIGH"
    case Urgent => "URGENT"
  }

  /** The priority a name stands for, if it is one of the four. */
  function PriorityNamed(name: string): (r: Option<Priority>)
    ensures r.Some? ==> PriorityName(r.value) == name
  {
    if name == "LOW" then Some(Low)
    else if name == "MEDIUM" then Some(Medium)
    else if name == "HIGH" then Some(High)
    else if name == "URGENT" then Some(Urgent)
    else None
  }

  /** The names and the priorities are in one-to-one correspondence. */
  lemma {:induction false} PriorityNameRoundTrip(p: Priority)
    ensures PriorityNamed(PriorityName(p)) == Some(p)
  {
  }

  function StatusName(s: Status): string {
    match s
    case Todo => "TODO"
    case InProgress => "IN_PROGRESS"
    case Completed => "COMPLETED"
  }

  /** A stored task row. */
  datatype Task = Task(
    id: string,
    title: string,
    description: Option<string>,
    priority: Priority,
    status: Status,
    timeEstimate: int,
    dueDate: Option<Timestamp>,
    createdAt: Timestamp,
    updatedAt: Timestamp,
    completedAt: Option<Timestamp>)

  function StringOrNull(s: Option<string>): Json {
    match s
    case Some(v) => JString(v)
    case None => JNull
  }

  /** A date as `JSON.stringify` writes it: its ISO text, or `null`. */
  function DateOrNull(t: Option<Timestamp>, isoString: Timestamp -> string): Json {
    match t
    case Some(v) => JString(isoString(v))
    case None => JNull
  }

  /** The JSON object a task row serialises to. */
  function TaskJson(t: Task, isoString: Timestamp -> string): Json {
    JObject([
      ("id", JString(t.id)),
      ("title", JString(t.title)),
      ("description", StringOrNull(t.description)),
      ("priority", JString(PriorityName(t.priority))),
      ("status", JString(StatusName(t.status))),
      ("timeEstimate", JNumber(t.timeEstimate as real)),
      ("dueDate", DateOrNull(t.dueDate, isoString)),
      ("createdAt", JString(isoString(t.createdAt))),
      ("updatedAt", JString(isoString(t.updatedAt))),
      ("completedAt", DateOrNull(t.completedAt, isoString))
    ])
  }

  /** No two rows share an id (the primary key). */
  ghost predicate DistinctIds(tasks: seq<Task>) {
    forall i, j :: 0 <= i < j < |tasks| ==> tasks[i].id != tasks[j].id
  }
}
