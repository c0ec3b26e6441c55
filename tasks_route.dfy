/**
 * `POST /api/tasks` and `GET /api/tasks`, over a task table and the
 * analytics log file, both held by one `TaskStore` object. The datastore's
 * own failures and the log append's success are inputs.
 */
module TasksRoute {
  import opened Wrappers
  import opened JsText
  import opened JsonValue
  import opened Http
  import opened TaskModel
  import opened LogReader

  // ---------------------------------------------------------------------
  // Request normalisation

  /** The `timeEstimate` of a request body: absent (or `null`), a string, or an integer number. */
  datatype Estimate = NoEstimate | EstimateText(text: string) | EstimateNumber(number: int)

  /** The fields `POST /api/tasks` reads from its JSON body. */
  datatype CreateRequest = CreateRequest(
    title: Option<string>,
    description: Option<string>,
    priority: Option<Priority>,
    timeEstimate: Estimate,
    dueDate: Option<string>)

  const DefaultTimeEstimate: int := 30

  /** `Boolean(timeEstimate)`. */
  predicate EstimateTruthy(e: Estimate) {
    match e
    case NoEstimate => false
    case EstimateText(s) => s != ""
    case EstimateNumber(n) => n != 0
  }

  /** `parseInt(timeEstimate)`, which first converts a number to its decimal text. */
  function EstimateParsed(e: Estimate): (r: Option<int>)
    ensures e.EstimateNumber? ==> r == Some(e.number)
  {
    match e
    case NoEstimate => None
    case EstimateText(s) => ParseInt(s)
    case EstimateNumber(n) =>
      ParseIntOfDecimal(n, "");
      assert IntToDecimal(n) + "" == IntToDecimal(n);
      ParseInt(IntToDecimal(n))
  }

  /**
   * `timeEstimate && !isNaN(parseInt(timeEstimate)) ? parseInt(timeEstimate) : 30`:
   * the default for a falsy or unparsable estimate, and otherwise the value of
   * its leading integer, with no range check.
   */
  function NormalizeTimeEstimate(e: Estimate): (r: int)
    ensures !EstimateTruthy(e) ==> r == DefaultTimeEstimate
    ensures e.EstimateText? && ParseInt(e.text).None? ==> r == DefaultTimeEstimate
    ensures e.EstimateText? && ParseInt(e.text).Some? ==> r == ParseInt(e.text).value
    ensures e.EstimateNumber? && e.number != 0 ==> r == e.number
  {
    if EstimateTruthy(e) && EstimateParsed(e).Some? then EstimateParsed(e).value else DefaultTimeEstimate
  }

  /** Text that starts with an integer normalises to that integer, whatever follows it. */
  lemma {:induction false} NormalizeLeadingInteger(n: int, suffix: string)
    requires suffix == [] || !IsDecimalDigit(suffix[0])
    requires n == 0 && suffix != [] ==> suffix[0] != 'x' && suffix[0] != 'X'
    ensures NormalizeTimeEstimate(EstimateText(IntToDecimal(n) + suffix)) == n
  {
    ParseIntOfDecimal(n, suffix);
  }

  /** Text that does not start with whitespace, a sign or a digit normalises to the default. */
  lemma {:induction false} NormalizeNonNumeric(s: string)
    requires s != [] && !IsWhitespace(s[0]) && !IsDecimalDigit(s[0]) && s[0] != '-' && s[0] != '+'
    ensures NormalizeTimeEstimate(EstimateText(s)) == DefaultTimeEstimate
  {
    ParseIntNoDigits(s);
  }

  /** `"45min"` is read as 45 minutes. */
  lemma {:induction false} NormalizeWithUnit()
    ensures NormalizeTimeEstimate(EstimateText("45min")) == 45
  {
    assert NatToDecimal(45) == NatToDecimal(4) + [DecimalDigit(5)];
    assert IntToDecimal(45) + "min" == "45min";
    NormalizeLeadingInteger(45, "min");
  }

  /** `dueDate ? new Date(dueDate) : null`. */
  function CoerceDueDate(dueDate: Option<string>, parseDate: string -> Timestamp): (r: Option<Timestamp>)
    ensures r.None? <==> dueDate.None? || dueDate.value == ""
    ensures r.Some? ==> r.value == parseDate(dueDate.value)
  {
    if dueDate.Some? && dueDate.value != "" then Some(parseDate(dueDate.value)) else None
  }

  /** `!title` is false. */
  predicate HasTitle(title: Option<string>) {
    title.Some? && title.value != ""
  }

  /** The row the datastore inserts: status TODO, MEDIUM when no priority is given, created now. */
  function NewTask(req: CreateRequest, id: string, now: Timestamp, parseDate: string -> Timestamp): Task
    requires HasTitle(req.title)
  {
    Task(
      id := id,
      title := req.title.value,
      description := req.description,
      priority := if req.priority.Some? then req.priority.value else Medium,
      status := Todo,
      timeEstimate := NormalizeTimeEstimate(req.timeEstimate),
      dueDate := CoerceDueDate(req.dueDate, parseDate),
      createdAt := now,
      updatedAt := now,
      completedAt := None)
  }

  /** `{ event: 'TASK_CREATED', taskId: task.id, details: task }`. */
  function CreatedEvent(task: Task, isoString: Timestamp -> string): seq<(string, Json)> {
    [("event", JString("TASK_CREATED")), ("taskId", JString(task.id)), ("details", TaskJson(task, isoString))]
  }

  /** `{ timestamp, ...event }`. */
  function LogEntry(timestamp: string, event: seq<(string, Json)>): Json {
    JObject([("timestamp", JString(timestamp))] + event)
  }

  function TitleRequired(): Response {
    Response(400, ErrorBody("Title is required"))
  }

  function ServerError(): Response {
    Response(500, ErrorBody("Internal Server Error"))
  }

  // ---------------------------------------------------------------------
  // Ordering of GET /api/tasks

  /** Sorted by `createdAt`, newest first. */
  ghost predicate NewestFirst(s: seq<Task>) {
    forall i, j :: 0 <= i < j < |s| ==> s[i].createdAt >= s[j].createdAt
  }

  /** In a sorted list the head is the newest. */
  lemma {:induction false} HeadIsNewest(s: seq<Task>)
    requires NewestFirst(s) && s != []
    ensures forall x :: x in s ==> x.createdAt <= s[0].createdAt
  {
    forall x | x in s
      ensures x.createdAt <= s[0].createdAt
    {
      var j :| 0 <= j < |s| && s[j] == x;
      if j > 0 {
        assert s[0].createdAt >= s[j].createdAt;
      }
    }
  }

  /** Putting a task no older than any in a sorted list in front keeps it sorted. */
  lemma {:induction false} ConsNewestFirst(x: Task, s: seq<Task>)
    requires NewestFirst(s)
    requires forall y :: y in s ==> y.createdAt <= x.createdAt
    ensures NewestFirst([x] + s)
  {
    var r := [x] + s;
    forall i, j | 0 <= i < j < |r|
      ensures r[i].createdAt >= r[j].createdAt
    {
      if i == 0 {
        assert r[j] == s[j - 1];
        assert r[j] in s;
      } else {
        assert r[i] == s[i - 1] && r[j] == s[j - 1];
      }
    }
  }

  function InsertNewestFirst(t: Task, s: seq<Task>): (r: seq<Task>)
    requires NewestFirst(s)
    ensures NewestFirst(r)
    ensures multiset(r) == multiset(s) + multiset{t}
    ensures forall x :: x in r ==> x == t || x in s
  {
    if s == [] then [t]
    else if s[0].createdAt <= t.createdAt then
      HeadIsNewest(s);
      ConsNewestFirst(t, s);
      [t] + s
    else
      TailNewestFirst(s);
      var rest := InsertNewestFirst(t, s[1..]);
      assert s == [s[0]] + s[1..];
      KeepHeadInFront(t, s, rest);
      [s[0]] + rest
  }

  /** The tail of a sorted list is sorted. */
  lemma {:induction false} TailNewestFirst(s: seq<Task>)
    requires NewestFirst(s) && s != []
    ensures NewestFirst(s[1..])
  {
    forall i, j | 0 <= i < j < |s| - 1
      ensures s[1..][i].createdAt >= s[1..][j].createdAt
    {
      assert s[1..][i] == s[i + 1] && s[1..][j] == s[j + 1];
    }
  }

  /** A head newer than the inserted task stays in front of the rest once the task is inserted into it. */
  lemma {:induction false} KeepHeadInFront(t: Task, s: seq<Task>, rest: seq<Task>)
    requires NewestFirst(s) && s != [] && t.createdAt < s[0].createdAt
    requires NewestFirst(rest)
    requires forall x :: x in rest ==> x == t || x in s[1..]
    ensures NewestFirst([s[0]] + rest)
  {
    HeadIsNewest(s);
    forall y | y in rest
      ensures y.createdAt <= s[0].createdAt
    {
      if y != t {
        assert y in s;
      }
    }
    ConsNewestFirst(s[0], rest);
  }

  /** The rows of the table in `orderBy: { createdAt: 'desc' }` order. */
  function SortNewestFirst(s: seq<Task>): (r: seq<Task>)
    ensures NewestFirst(r)
    ensures multiset(r) == multiset(s)
  {
    if s == [] then []
    else
      assert s == [s[0]] + s[1..];
      InsertNewestFirst(s[0], SortNewestFirst(s[1..]))
  }

  function TasksJson(rows: seq<Task>, isoString: Timestamp -> string): (r: seq<Json>)
    ensures |r| == |rows|
  {
    seq(|rows|, i requires 0 <= i < |rows| => TaskJson(rows[i], isoString))
  }

  /** Appending the chunks of a log text produces the log text. */
  function Concat(chunks: seq<string>): string {
    if chunks == [] then "" else chunks[0] + Concat(chunks[1..])
  }

  lemma {:induction false} ConcatChunks(chunks: seq<string>, entries: seq<Json>, stringify: Json -> string)
    requires |chunks| == |entries|
    requires forall i :: 0 <= i < |chunks| ==> chunks[i] == stringify(entries[i]) + "\n"
    ensures Concat(chunks) == LogText(entries, stringify)
  {
    if chunks != [] {
      ConcatChunks(chunks[1..], entries[1..], stringify);
    }
  }

  /** The ids of a table. */
  function Ids(tasks: seq<Task>): set<string> {
    set i | 0 <= i < |tasks| :: tasks[i].id
  }

  // ---------------------------------------------------------------------
  // The store

  /**
   * The `Task` table (rows in insertion order) and the analytics log file
   * (the chunks appended to it). `logged` is the value each chunk serialises.
   */
  class TaskStore {
    const stringify: Json -> string
    const isoString: Timestamp -> string
    var tasks: seq<Task>
    var log: seq<string>
    ghost var logged: seq<Json>

    ghost predicate Valid()
      reads this
    {
      && DistinctIds(tasks)
      && (forall i :: 0 <= i < |tasks| ==> tasks[i].title != "")
      && |log| == |logged|
      && (forall i :: 0 <= i < |log| ==> log[i] == stringify(logged[i]) + "\n" && logged[i].JObject?)
    }

    constructor(stringify: Json -> string, isoString: Timestamp -> string)
      ensures Valid()
      ensures this.stringify == stringify && this.isoString == isoString
      ensures tasks == [] && log == [] && logged == []
    {
      this.stringify := stringify;
      this.isoString := isoString;
      tasks, log, logged := [], [], [];
    }

    /** The text of the log file. */
    function LogFile(): string
      reads this
    {
      Concat(log)
    }

    /**
     * `logEvent(event)`: appends one `JSON.stringify({ timestamp, ...event }) + '\n'`;
     * a failed append is swallowed and leaves the file as it was.
     */
    method LogEvent(event: seq<(string, Json)>, now: Timestamp, appendOk: bool)
      requires Valid()
      modifies this`log, this`logged
      ensures Valid()
      ensures var entry := LogEntry(isoString(now), event);
        && log == old(log) + (if appendOk then [stringify(entry) + "\n"] else [])
        && logged == old(logged) + (if appendOk then [entry] else [])
    {
      var entry := LogEntry(isoString(now), event);
      if appendOk {
        log := log + [stringify(entry) + "\n"];
        logged := logged + [entry];
      }
    }

    /**
     * `POST /api/tasks`. `body` is `None` when `request.json()` throws;
     * `dbFails` says the insert throws (a duplicate `newId` throws too).
     * `now` is the row's creation time, `logTime` the log entry's.
     */
    method Create(body: Option<CreateRequest>, newId: string, now: Timestamp, logTime: Timestamp,
                  parseDate: string -> Timestamp, dbFails: bool, appendOk: bool) returns (resp: Response)
      requires Valid()
      modifies this`tasks, this`log, this`logged
      ensures Valid()
      ensures body.None? ==> resp == ServerError()
      ensures body.Some? && !HasTitle(body.value.title) ==> resp == TitleRequired()
      ensures body.Some? && HasTitle(body.value.title) && (dbFails || newId in Ids(old(tasks))) ==> resp == ServerError()
      ensures resp.status != 201 ==> tasks == old(tasks) && log == old(log) && logged == old(logged)
      ensures resp.status == 201 <==> body.Some? && HasTitle(body.value.title) && !dbFails && newId !in Ids(old(tasks))
      ensures resp.status == 201 ==>
        var task := NewTask(body.value, newId, now, parseDate);
        var entry := LogEntry(isoString(logTime), CreatedEvent(task, isoString));
        && resp == Response(201, TaskJson(task, isoString))
        && tasks == old(tasks) + [task]
        && (task.dueDate.None? <==> body.value.dueDate.None? || body.value.dueDate.value == "")
        && log == old(log) + (if appendOk then [stringify(entry) + "\n"] else [])
        && logged == old(logged) + (if appendOk then [entry] else [])
    {
      if body.None? {
        return ServerError();
      }
      var req := body.value;
      if !HasTitle(req.title) {
        return TitleRequired();
      }
      if dbFails || newId in Ids(tasks) {
        return ServerError();
      }
      var task := NewTask(req, newId, now, parseDate);
      assert forall i :: 0 <= i < |tasks| ==> tasks[i].id in Ids(tasks);
      tasks := tasks + [task];
      LogEvent(CreatedEvent(task, isoString), logTime, appendOk);
      resp := Response(201, TaskJson(task, isoString));
    }

    /**
     * `GET /api/tasks`: every row, newest first, or 500 when the query throws.
     * `rows` is the listed table.
     */
    method List(dbFails: bool) returns (resp: Response, rows: seq<Task>)
      ensures dbFails ==> resp == ServerError() && rows == []
      ensures !dbFails ==> resp == Response(200, JArray(TasksJson(rows, isoString)))
      ensures !dbFails ==> NewestFirst(rows) && multiset(rows) == multiset(tasks)
    {
      if dbFails {
        return ServerError(), [];
      }
      rows := SortNewestFirst(tasks);
      resp := Response(200, JArray(TasksJson(rows, isoString)));
    }

    /** `prisma.task.update({ where: { id }, data: { dueDate } })`; `found` is false when no row has the id (the update throws). */
    method SetDueDate(id: string, dueDate: Timestamp) returns (found: bool)
      requires Valid()
      modifies this`tasks
      ensures Valid()
      ensures found <==> id in Ids(old(tasks))
      ensures |tasks| == |old(tasks)|
      ensures forall k :: 0 <= k < |tasks| ==>
        tasks[k] == if old(tasks)[k].id == id then old(tasks)[k].(dueDate := Some(dueDate)) else old(tasks)[k]
    {
      found := id in Ids(tasks);
      tasks := seq(|tasks|, k requires 0 <= k < |tasks| reads this =>
        if tasks[k].id == id then tasks[k].(dueDate := Some(dueDate)) else tasks[k]);
    }

    /** `prisma.task.findMany({ where: { dueDate: null } })`, in table order. */
    method NullDueRows() returns (rows: seq<Task>)
      ensures rows == NullDueTasks(tasks)
    {
      rows := NullDueTasks(tasks);
    }
  }

  /** Selecting from a concatenation selects from each part in turn: the rows keep their table order. */
  lemma {:induction false} NullDueTasksAppend(a: seq<Task>, b: seq<Task>)
    ensures NullDueTasks(a + b) == NullDueTasks(a) + NullDueTasks(b)
  {
    if a != [] {
      assert (a + b)[1..] == a[1..] + b;
      NullDueTasksAppend(a[1..], b);
    } else {
      assert a + b == b;
    }
  }

  /** The rows whose `dueDate` is null, in table order. */
  function NullDueTasks(tasks: seq<Task>): (r: seq<Task>)
    ensures |r| <= |tasks|
    ensures forall t :: t in r <==> t in tasks && t.dueDate.None?
  {
    if tasks == [] then []
    else
      var rest := NullDueTasks(tasks[1..]);
      assert forall t :: t in tasks <==> t == tasks[0] || t in tasks[1..];
      (if tasks[0].dueDate.None? then [tasks[0]] else []) + rest
  }

  /** The analytics log of a store built by `LogEvent` reads back, through `GET /api/raw-logs`, as the logged entries in order. */
  lemma {:induction false} StoreLogReadsBack(store: TaskStore, parse: string -> ParseResult)
    requires store.Valid()
    requires forall i :: 0 <= i < |store.logged| ==> WritesOneLine(store.logged[i], store.stringify, parse)
    ensures RawLogsGet(FileText(store.LogFile()), parse) == Response(200, JArray(store.logged))
  {
    ConcatChunks(store.log, store.logged, store.stringify);
    ReadBackAppended(store.logged, store.stringify, parse);
  }
}
