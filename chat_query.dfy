/**
 * `POST /api/chat-query`: a question answered by the language model from the
 * task table and the analytics log. The model is a parameter from the prompt
 * to its completion; the clock reading is the parameter `now`.
 */
module ChatQuery {
  import opened Wrappers
  import opened JsonValue
  import opened Http
  import opened TaskModel
  import opened JsText
  import opened LogReader

  /** The eight columns the route selects: everything but `dueDate` and `updatedAt`. */
  datatype ChatTaskView = ChatTaskView(
    id: string,
    title: string,
    description: Option<string>,
    status: Status,
    priority: Priority,
    timeEstimate: int,
    createdAt: Timestamp,
    completedAt: Option<Timestamp>)

  function ViewOf(t: Task): ChatTaskView {
    ChatTaskView(t.id, t.title, t.description, t.status, t.priority, t.timeEstimate, t.createdAt, t.completedAt)
  }

  function ChatTaskViews(tasks: seq<Task>): (r: seq<ChatTaskView>)
    ensures |r| == |tasks|
    ensures forall i :: 0 <= i < |tasks| ==> r[i] == ViewOf(tasks[i])
  {
    seq(|tasks|, i requires 0 <= i < |tasks| => ViewOf(tasks[i]))
  }

  /** Two tables that differ only in due dates and update times give the model the same task data. */
  lemma {:induction false} ViewsIgnoreDueAndUpdate(a: seq<Task>, b: seq<Task>)
    requires |a| == |b|
    requires forall i :: 0 <= i < |a| ==> a[i].(dueDate := b[i].dueDate, updatedAt := b[i].updatedAt) == b[i]
    ensures ChatTaskViews(a) == ChatTaskViews(b)
  {
    assert forall i :: 0 <= i < |a| ==> ViewOf(a[i]) == ViewOf(b[i]);
  }

  /** What the model is given: the current time, the selected rows, the parsed log entries and the user's question. */
  datatype ChatPrompt = ChatPrompt(now: string, tasks: seq<ChatTaskView>, logEntries: seq<Json>, question: Json)

  /** The message of the `TypeError` thrown by destructuring `question` out of a `null` body. */
  const NullBodyMessage: string := "Cannot destructure property 'question' of 'body' as it is null."

  const NoContentMessage: string := "OpenAI did not return any content."

  /** The body was parsed to something other than `null` and its `question` is truthy. */
  predicate Asked(body: ParseResult) {
    body.Parsed? && body.value != JNull && TruthyValue(Get(body.value, "question"))
  }

  /** The `try` block: a response, or what it throws. */
  function ChatQueryTry(body: ParseResult, db: DbResult<seq<Task>>, logEntries: seq<Json>, now: string,
                        ask: ChatPrompt -> Completion): Result<Response, Thrown>
  {
    match body
    case SyntaxError(message) => Failure(NewError(message))
    case Parsed(value) =>
      if value == JNull then Failure(NewError(NullBodyMessage))
      else
        var question := Get(value, "question");
        if !TruthyValue(question) then Success(Response(400, ErrorBody("Question is required")))
        else
          match db
          case DbFailed(e) => Failure(e)
          case Rows(tasks) =>
            var prompt := ChatPrompt(now, ChatTaskViews(tasks), logEntries, question.value);
            match ask(prompt)
            case CallFailed(e) => Failure(e)
            case Answered(content) =>
              if content.Some? && content.value != "" then Success(Response(200, JObject([("answer", JString(content.value))])))
              else Failure(NewError(NoContentMessage))
  }

  /** The handler: the `try` block, with anything it throws answered by the catch-all. */
  function ChatQueryPost(body: ParseResult, db: DbResult<seq<Task>>, file: FileRead, now: string,
                         ask: ChatPrompt -> Completion, parse: string -> ParseResult): (r: Response)
    ensures body.SyntaxError? ==> r == InternalError(NewError(body.message))
    ensures body == Parsed(JNull) ==> r == InternalError(NewError(NullBodyMessage))
    ensures body.Parsed? && body.value != JNull && !Asked(body) ==> r == Response(400, ErrorBody("Question is required"))
    ensures Asked(body) && db.DbFailed? ==> r == UpstreamOrInternal(db.error)
    ensures Asked(body) && db.Rows? ==>
      var prompt := ChatPrompt(now, ChatTaskViews(db.rows), ChatLogEntries(file, parse), Get(body.value, "question").value);
      match ask(prompt)
      case CallFailed(e) => r == UpstreamOrInternal(e)
      case Answered(content) =>
        if content.Some? && content.value != ""
        then r == Response(200, JObject([("answer", JString(content.value))]))
        else r == InternalError(NewError(NoContentMessage))
  {
    match ChatQueryTry(body, db, ChatLogEntries(file, parse), now, ask)
    case Success(response) => response
    case Failure(e) => UpstreamOrInternal(e)
  }

  /**
   * A log file that cannot be read, for whatever reason, is treated as an
   * empty log: the answer is the one given for an empty file.
   */
  lemma {:induction false} UnreadableLogIsEmpty(body: ParseResult, db: DbResult<seq<Task>>, error: Thrown, now: string,
                             ask: ChatPrompt -> Completion, parse: string -> ParseResult)
    requires parse("").SyntaxError?
    ensures ChatQueryPost(body, db, FileError(error), now, ask, parse) == ChatQueryPost(body, db, FileText(""), now, ask, parse)
  {
    assert Trim("") == "";
    assert ChatLogEntries(FileText(""), parse) == [] == ChatLogEntries(FileError(error), parse);
  }

  /** The model is asked only when a question was given and the table was read; otherwise the answer does not depend on it. */
  lemma {:induction false} ModelAskedOnlyForQuestions(body: ParseResult, db: DbResult<seq<Task>>, file: FileRead, now: string,
                                   ask1: ChatPrompt -> Completion, ask2: ChatPrompt -> Completion, parse: string -> ParseResult)
    requires !Asked(body) || db.DbFailed?
    ensures ChatQueryPost(body, db, file, now, ask1, parse) == ChatQueryPost(body, db, file, now, ask2, parse)
  {
  }
}
