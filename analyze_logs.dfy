/**
 * `GET /api/analyze-logs`: the analytics log handed to the language model,
 * whose JSON report is checked for three fields before it is returned. The
 * model is a parameter from the log text to its completion.
 */
module AnalyzeLogs {
  import opened Wrappers
  import opened JsText
  import opened JsonValue
  import opened Http

  const BlankLogReport: string := "No activity logged yet. Complete some tasks to generate a report."
  const MissingLogReport: string := "No activity has been logged yet. Complete some tasks first."
  const NoContentMessage: string := "OpenAI did not return any content."
  const MismatchMessage: string := "OpenAI report response did not match expected structure."
  /** The message of the `TypeError` thrown by reading a property of `null`. */
  const NullReportMessage: string := "Cannot read properties of null (reading 'summaryText')"

  /** `summaryText` is a string, `chartData` is an object (or `null`, or an array: `typeof` says 'object'), `insights` is an array. */
  predicate IsReportShape(report: Json) {
    && TypeOf(Get(report, "summaryText")) == TString
    && TypeOf(Get(report, "chartData")) == TObject
    && IsArray(Get(report, "insights"))
  }

  /**
   * The check reads `chartData` through `typeof` only: an object, an array or
   * `null` passes, a string, number or boolean fails, and nothing inside it is checked.
   */
  lemma {:induction false} ChartDataRule(summary: string, chartData: Json, insights: seq<Json>)
    ensures IsReportShape(JObject([("summaryText", JString(summary)), ("chartData", chartData), ("insights", JArray(insights))]))
        <==> chartData.JNull? || chartData.JArray? || chartData.JObject?
  {
    var members := [("summaryText", JString(summary)), ("chartData", chartData), ("insights", JArray(insights))];
    LookupAt(members, 0);
    LookupAt(members, 1);
    LookupAt(members, 2);
  }

  function ReportBody(report: Json): (r: Json)
    ensures Get(r, "report") == Some(report)
  {
    JObject([("report", report)])
  }

  /** The `try` block: a response, or what it throws. */
  function AnalyzeLogsTry(file: FileRead, ask: string -> Completion, parse: string -> ParseResult): Result<Response, Thrown> {
    match file
    case FileError(e) => Failure(e)
    case FileText(content) =>
      if Trim(content) == "" then Success(Response(200, ReportBody(JString(BlankLogReport))))
      else
        match ask(content)
        case CallFailed(e) => Failure(e)
        case Answered(answer) =>
          if answer.None? || answer.value == "" then Failure(NewError(NoContentMessage))
          else
            match parse(answer.value)
            case SyntaxError(message) => Failure(NewError(message))
            case Parsed(report) =>
              if report == JNull then Failure(NewError(NullReportMessage))
              else if !IsReportShape(report) then Failure(NewError(MismatchMessage))
              else Success(Response(200, ReportBody(report)))
  }

  /** The route's catch: a missing file is answered with a report message, then as the other AI routes do. */
  function AnalyzeLogsCatch(e: Thrown): (r: Response)
    ensures IsNotFound(e) ==> r == Response(200, ReportBody(JString(MissingLogReport)))
    ensures !IsNotFound(e) ==> r == UpstreamOrInternal(e)
  {
    if IsNotFound(e) then Response(200, ReportBody(JString(MissingLogReport))) else UpstreamOrInternal(e)
  }

  function AnalyzeLogsGet(file: FileRead, ask: string -> Completion, parse: string -> ParseResult): (r: Response)
    ensures file.FileError? ==> r == AnalyzeLogsCatch(file.error)
    ensures file.FileText? && IsBlank(file.text) ==> r == Response(200, ReportBody(JString(BlankLogReport)))
    ensures file.FileText? && !IsBlank(file.text) ==>
      match ask(file.text)
      case CallFailed(e) => r == AnalyzeLogsCatch(e)
      case Answered(answer) =>
        if answer.None? || answer.value == "" then r == InternalError(NewError(NoContentMessage))
        else match parse(answer.value)
          case SyntaxError(message) => r == InternalError(NewError(message))
          case Parsed(report) =>
            && (report == JNull ==> r == InternalError(NewError(NullReportMessage)))
            && (report != JNull && !IsReportShape(report) ==> r == InternalError(NewError(MismatchMessage)))
            && (report != JNull && IsReportShape(report) ==> r == Response(200, ReportBody(report)))
  {
    match AnalyzeLogsTry(file, ask, parse)
    case Success(response) => response
    case Failure(e) => AnalyzeLogsCatch(e)
  }

  /**
   * Whenever the response carries a `report`, it is one of the two fixed
   * notices or a value that passed the structure check, and the status is 200.
   */
  lemma {:induction false} ReportIsNoticeOrChecked(file: FileRead, ask: string -> Completion, parse: string -> ParseResult)
    ensures var r := AnalyzeLogsGet(file, ask, parse);
      Get(r.body, "report").Some? ==>
        && r.status == 200
        && var report := Get(r.body, "report").value;
           report == JString(BlankLogReport) || report == JString(MissingLogReport) || IsReportShape(report)
  {
    var t := AnalyzeLogsTry(file, ask, parse);
    if t.Success? {
      TryReportIsNoticeOrChecked(file, ask, parse);
    } else if !IsNotFound(t.error) {
      ErrorBodiesHaveNoReport(t.error);
    }
  }

  /** The responses of the `try` block itself: a notice or a checked report, always with status 200. */
  lemma {:induction false} TryReportIsNoticeOrChecked(file: FileRead, ask: string -> Completion, parse: string -> ParseResult)
    requires AnalyzeLogsTry(file, ask, parse).Success?
    ensures var r := AnalyzeLogsTry(file, ask, parse).value;
      && r.status == 200
      && Get(r.body, "report").Some?
      && var report := Get(r.body, "report").value;
         && r.body == ReportBody(report)
         && (report == JString(BlankLogReport) || IsReportShape(report))
  {
    if Trim(file.text) == "" {
      assert AnalyzeLogsTry(file, ask, parse).value.body == ReportBody(JString(BlankLogReport));
    } else {
      var report := parse(ask(file.text).content.value).value;
      assert AnalyzeLogsTry(file, ask, parse).value.body == ReportBody(report);
    }
  }

  /** The bodies the catch-all builds have no `report` member. */
  lemma {:induction false} ErrorBodiesHaveNoReport(e: Thrown)
    ensures Get(UpstreamOrInternal(e).body, "report").None?
  {
    var body := UpstreamOrInternal(e).body;
    assert body.members[1..][1..] == [];
  }

  /**
   * Of everything the catch can be handed, only a missing file is answered
   * with a report, and with status 200 even when the thrown value also
   * carries an upstream `response`.
   */
  lemma {:induction false} CatchReportsOnlyMissingLog(e: Thrown)
    ensures Get(AnalyzeLogsCatch(e).body, "report").Some? <==> IsNotFound(e)
    ensures IsNotFound(e) ==> AnalyzeLogsCatch(e).status == 200
  {
    if !IsNotFound(e) {
      ErrorBodiesHaveNoReport(e);
    }
  }

  /** The model call is the only outside effect besides the read: a blank or missing log never reaches it. */
  lemma {:induction false} ModelNotAskedWithoutActivity(file: FileRead, ask1: string -> Completion, ask2: string -> Completion, parse: string -> ParseResult)
    requires file.FileText? ==> IsBlank(file.text)
    requires file.FileError? ==> IsNotFound(file.error)
    ensures AnalyzeLogsGet(file, ask1, parse) == AnalyzeLogsGet(file, ask2, parse)
    ensures AnalyzeLogsGet(file, ask1, parse).status == 200
  {
  }
}
