/**
 * `POST /api/suggest-task`: a rough task idea turned by the language model
 * into a structured suggestion, which is checked field by field before it is
 * returned. The model is a parameter from the user's input to its completion.
 */
module SuggestTask {
  import opened Wrappers
  import opened JsonValue
  import opened Http
  import opened TaskModel

  const InputRequiredMessage: string := "User input is required"
  const NoContentMessage: string := "OpenAI did not return any content."
  const MismatchMessage: string := "OpenAI response did not match expected structure."
  /** The messages of the `TypeError`s thrown by reading a property of `null`. */
  const NullBodyMessage: string := "Cannot destructure property 'userInput' of 'body' as it is null."
  const NullSuggestionMessage: string := "Cannot read properties of null (reading 'title')"

  /** `['LOW', 'MEDIUM', 'HIGH', 'URGENT'].includes(v)`. */
  predicate IsPriorityName(v: Option<Json>) {
    v.Some? && v.value.JString? && PriorityNamed(v.value.s).Some?
  }

  /** The route's structure check; a missing `dueDate` fails it, `null` passes. */
  predicate IsSuggestionShape(s: Json) {
    && TypeOf(Get(s, "title")) == TString
    && TypeOf(Get(s, "description")) == TString
    && IsPriorityName(Get(s, "priority"))
    && TypeOf(Get(s, "timeEstimate")) == TNumber
    && (Get(s, "dueDate") == Some(JNull) || TypeOf(Get(s, "dueDate")) == TString)
  }

  /** A suggestion that passed the check, as the new-task page uses it. */
  datatype Suggestion = Suggestion(title: string, description: string, priority: Priority, timeEstimate: real, dueDate: Option<string>)

  function SuggestionJson(s: Suggestion): Json {
    JObject([
      ("title", JString(s.title)),
      ("description", JString(s.description)),
      ("priority", JString(PriorityName(s.priority))),
      ("timeEstimate", JNumber(s.timeEstimate)),
      ("dueDate", if s.dueDate.Some? then JString(s.dueDate.value) else JNull)
    ])
  }

  /** The typed reading of a value: defined exactly on the values that pass the route's check. */
  function DecodeSuggestion(j: Json): (r: Option<Suggestion>)
    ensures r.Some? <==> IsSuggestionShape(j)
  {
    if !IsSuggestionShape(j) then None
    else
      var due := Get(j, "dueDate").value;
      Some(Suggestion(
        Get(j, "title").value.s,
        Get(j, "description").value.s,
        PriorityNamed(Get(j, "priority").value.s).value,
        Get(j, "timeEstimate").value.n,
        if due.JString? then Some(due.s) else None))
  }

  /** Every suggestion, written as JSON, passes the check and reads back as itself. */
  lemma {:induction false} SuggestionRoundTrip(s: Suggestion)
    ensures IsSuggestionShape(SuggestionJson(s))
    ensures DecodeSuggestion(SuggestionJson(s)) == Some(s)
  {
    SuggestionFields(s);
    DecodeOfFields(SuggestionJson(s), s);
  }

  /** The five members of a written suggestion, each found under its own key. */
  lemma {:induction false} SuggestionFields(s: Suggestion)
    ensures var j := SuggestionJson(s);
      && Get(j, "title") == Some(JString(s.title))
      && Get(j, "description") == Some(JString(s.description))
      && Get(j, "priority") == Some(JString(PriorityName(s.priority)))
      && Get(j, "timeEstimate") == Some(JNumber(s.timeEstimate))
      && Get(j, "dueDate") == Some(if s.dueDate.Some? then JString(s.dueDate.value) else JNull)
  {
    var j := SuggestionJson(s);
    var m := j.members;
    assert Get(j, "title") == Some(JString(s.title)) by { LookupAt(m, 0); }
    assert Get(j, "description") == Some(JString(s.description)) by { LookupAt(m, 1); }
    assert Get(j, "priority") == Some(JString(PriorityName(s.priority))) by { LookupAt(m, 2); }
    assert Get(j, "timeEstimate") == Some(JNumber(s.timeEstimate)) by { LookupAt(m, 3); }
    assert Get(j, "dueDate") == Some(m[4].1) by { LookupAt(m, 4); }
  }

  /** A value whose five members are those of a suggestion decodes to that suggestion. */
  lemma {:induction false} DecodeOfFields(j: Json, s: Suggestion)
    requires Get(j, "title") == Some(JString(s.title))
    requires Get(j, "description") == Some(JString(s.description))
    requires Get(j, "priority") == Some(JString(PriorityName(s.priority)))
    requires Get(j, "timeEstimate") == Some(JNumber(s.timeEstimate))
    requires Get(j, "dueDate") == Some(if s.dueDate.Some? then JString(s.dueDate.value) else JNull)
    ensures IsSuggestionShape(j)
    ensures DecodeSuggestion(j) == Some(s)
  {
    PriorityNameRoundTrip(s.priority);
  }

  /** Members beyond the five checked ones never make a suggestion fail the check (and are returned with it). */
  lemma {:induction false} ExtraMembersKept(members: seq<(string, Json)>, extra: seq<(string, Json)>)
    requires DistinctKeys(members + extra)
    requires IsSuggestionShape(JObject(members))
    ensures IsSuggestionShape(JObject(members + extra))
  {
    LookupAppend(members, extra, "title");
    LookupAppend(members, extra, "description");
    LookupAppend(members, extra, "priority");
    LookupAppend(members, extra, "timeEstimate");
    LookupAppend(members, extra, "dueDate");
  }

  /**
   * With the other four fields right, the check passes exactly when `dueDate`
   * is `null` or a string: a missing one fails. Any number passes as the
   * estimate, fractional or negative.
   */
  lemma {:induction false} DueDateRule(title: string, description: string, priority: Priority, estimate: real, due: Option<Json>)
    ensures var members := [("title", JString(title)), ("description", JString(description)),
                            ("priority", JString(PriorityName(priority))), ("timeEstimate", JNumber(estimate))];
      var s := JObject(members + (if due.Some? then [("dueDate", due.value)] else []));
      IsSuggestionShape(s) <==> due == Some(JNull) || (due.Some? && due.value.JString?)
  {
    var members := [("title", JString(title)), ("description", JString(description)),
                    ("priority", JString(PriorityName(priority))), ("timeEstimate", JNumber(estimate))];
    var tail: seq<(string, Json)> := if due.Some? then [("dueDate", due.value)] else [];
    LeadingFields(title, description, priority, estimate, tail);
    DueDateMember(title, description, priority, estimate, due);
    ShapeDecidedByDueDate(JObject(members + tail), title, description, priority, estimate);
  }

  /** The four members before `dueDate` are read back whatever follows them. */
  lemma {:induction false} LeadingFields(title: string, description: string, priority: Priority, estimate: real, tail: seq<(string, Json)>)
    ensures var j := JObject([("title", JString(title)), ("description", JString(description)),
                              ("priority", JString(PriorityName(priority))), ("timeEstimate", JNumber(estimate))] + tail);
      && Get(j, "title") == Some(JString(title))
      && Get(j, "description") == Some(JString(description))
      && Get(j, "priority") == Some(JString(PriorityName(priority)))
      && Get(j, "timeEstimate") == Some(JNumber(estimate))
  {
    var all := [("title", JString(title)), ("description", JString(description)),
                ("priority", JString(PriorityName(priority))), ("timeEstimate", JNumber(estimate))] + tail;
    assert Lookup(all, "title") == Some(JString(title)) by { LookupAt(all, 0); }
    assert Lookup(all, "description") == Some(JString(description)) by { LookupAt(all, 1); }
    assert Lookup(all, "priority") == Some(JString(PriorityName(priority))) by { LookupAt(all, 2); }
    assert Lookup(all, "timeEstimate") == Some(JNumber(estimate)) by { LookupAt(all, 3); }
  }

  /** Reading `dueDate` after those four members gives the member appended, or `undefined`. */
  lemma {:induction false} DueDateMember(title: string, description: string, priority: Priority, estimate: real, due: Option<Json>)
    ensures var members := [("title", JString(title)), ("description", JString(description)),
                            ("priority", JString(PriorityName(priority))), ("timeEstimate", JNumber(estimate))];
      Get(JObject(members + (if due.Some? then [("dueDate", due.value)] else [])), "dueDate") == due
  {
    var members := [("title", JString(title)), ("description", JString(description)),
                    ("priority", JString(PriorityName(priority))), ("timeEstimate", JNumber(estimate))];
    if due.Some? {
      LookupAt(members + [("dueDate", due.value)], 4);
    } else {
      assert members + [] == members;
    }
  }

  /** With the first four members right, the check depends on `dueDate` alone. */
  lemma {:induction false} ShapeDecidedByDueDate(j: Json, title: string, description: string, priority: Priority, estimate: real)
    requires Get(j, "title") == Some(JString(title))
    requires Get(j, "description") == Some(JString(description))
    requires Get(j, "priority") == Some(JString(PriorityName(priority)))
    requires Get(j, "timeEstimate") == Some(JNumber(estimate))
    ensures IsSuggestionShape(j) <==> Get(j, "dueDate") == Some(JNull) || TypeOf(Get(j, "dueDate")) == TString
  {
    PriorityNameRoundTrip(priority);
    assert IsPriorityName(Get(j, "priority"));
    assert TypeOf(Get(j, "title")) == TString;
    assert TypeOf(Get(j, "description")) == TString;
    assert TypeOf(Get(j, "timeEstimate")) == TNumber;
  }

  /** The `try` block: a response, or what it throws. */
  function SuggestTaskTry(body: ParseResult, ask: Json -> Completion, parse: string -> ParseResult): Result<Response, Thrown> {
    match body
    case SyntaxError(message) => Failure(NewError(message))
    case Parsed(value) =>
      if value == JNull then Failure(NewError(NullBodyMessage))
      else
        var input := Get(value, "userInput");
        if !TruthyValue(input) then Success(Response(400, ErrorBody(InputRequiredMessage)))
        else
          match ask(input.value)
          case CallFailed(e) => Failure(e)
          case Answered(answer) =>
            if answer.None? || answer.value == "" then Failure(NewError(NoContentMessage))
            else
              match parse(answer.value)
              case SyntaxError(message) => Failure(NewError(message))
              case Parsed(suggestion) =>
                if suggestion == JNull then Failure(NewError(NullSuggestionMessage))
                else if !IsSuggestionShape(suggestion) then Failure(NewError(MismatchMessage))
                else Success(Response(200, suggestion))
  }

  /** The handler: the `try` block, with anything it throws answered by the catch-all. */
  function SuggestTaskPost(body: ParseResult, ask: Json -> Completion, parse: string -> ParseResult): (r: Response)
    ensures body.SyntaxError? ==> r == InternalError(NewError(body.message))
    ensures body == Parsed(JNull) ==> r == InternalError(NewError(NullBodyMessage))
    ensures body.Parsed? && body.value != JNull && !TruthyValue(Get(body.value, "userInput")) ==>
      r == Response(400, ErrorBody(InputRequiredMessage))
    ensures body.Parsed? && body.value != JNull && TruthyValue(Get(body.value, "userInput")) ==>
      match ask(Get(body.value, "userInput").value)
      case CallFailed(e) => r == UpstreamOrInternal(e)
      case Answered(answer) =>
        if answer.None? || answer.value == "" then r == InternalError(NewError(NoContentMessage))
        else match parse(answer.value)
          case SyntaxError(message) => r == InternalError(NewError(message))
          case Parsed(suggestion) =>
            && (suggestion == JNull ==> r == InternalError(NewError(NullSuggestionMessage)))
            && (suggestion != JNull && !IsSuggestionShape(suggestion) ==> r == InternalError(NewError(MismatchMessage)))
            && (suggestion != JNull && IsSuggestionShape(suggestion) ==> r == Response(200, suggestion))
  {
    match SuggestTaskTry(body, ask, parse)
    case Success(response) => response
    case Failure(e) => UpstreamOrInternal(e)
  }

  /**
   * Whatever the model says, a response the handler builds itself with status
   * 200 is a suggestion that decodes: anything else that reaches the client
   * with status 200 is an upstream error passed through.
   */
  lemma {:induction false} SuccessDecodes(body: ParseResult, ask: Json -> Completion, parse: string -> ParseResult)
    requires SuggestTaskTry(body, ask, parse).Success?
    ensures var r := SuggestTaskPost(body, ask, parse);
      r.status == 200 ==> DecodeSuggestion(r.body).Some?
    ensures SuggestTaskPost(body, ask, parse).status in {200, 400}
  {
  }
}
