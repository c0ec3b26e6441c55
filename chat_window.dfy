/**
 * The chat panel: a conversation of alternating user and assistant messages,
 * one question in flight at a time, sent to `POST /api/chat-query`.
 */
module ChatWindow {
  import opened Wrappers
  import opened JsText
  import opened JsonValue
  import opened Http
  import opened ChatQuery

  datatype Role = User | Ai
  datatype Message = Message(role: Role, content: string)

  /** How a request to the chat route settles: a status and the parsed body, or a thrown `fetch`. */
  datatype ChatOutcome = Replied(status: int, data: ParseResult) | FetchThrew

  const NoResponseText: string := "Error: Could not get a response from AI."
  const ConnectFailedText: string := "Error: Failed to connect to AI. Please try again later."

  /** `response.ok`. */
  predicate IsOk(status: int) {
    200 <= status < 300
  }

  /** A value interpolated into a template literal: a string as itself, anything else as `render` writes it. */
  function Display(j: Json, render: Json -> string): string {
    if j.JString? then j.s else render(j)
  }

  /** `` `Error: ${error} - ${details}` ``. */
  function ErrorLine(error: string, details: string): string {
    "Error: " + error + " - " + details
  }

  /** The assistant message for a reply whose body parsed to something other than `null`. */
  function ReplyText(status: int, data: Json, render: Json -> string): (r: string)
    ensures !(IsOk(status) && TruthyValue(Get(data, "answer"))) && !TruthyValue(Get(data, "error")) ==> r == NoResponseText
  {
    var answer := Get(data, "answer");
    var error := Get(data, "error");
    var details := Get(data, "details");
    if IsOk(status) && TruthyValue(answer) then Display(answer.value, render)
    else if TruthyValue(error) then
      ErrorLine(Display(error.value, render), if TruthyValue(details) then Display(details.value, render) else "Unknown")
    else NoResponseText
  }

  /**
   * The assistant message for an outcome: the answer of a successful reply,
   * an error line built from `error` and `details`, a fixed fallback, or the
   * connection notice when `fetch`, `response.json()` or reading a property
   * of `null` throws.
   */
  function AiContent(outcome: ChatOutcome, render: Json -> string): (r: string)
    ensures outcome.FetchThrew? ==> r == ConnectFailedText
    ensures outcome.Replied? && (outcome.data.SyntaxError? || outcome.data.value == JNull) ==> r == ConnectFailedText
    ensures outcome.Replied? && outcome.data.Parsed? && outcome.data.value != JNull ==>
      r == ReplyText(outcome.status, outcome.data.value, render)
  {
    match outcome
    case FetchThrew => ConnectFailedText
    case Replied(status, data) =>
      if data.SyntaxError? || data.value == JNull then ConnectFailedText
      else ReplyText(status, data.value, render)
  }

  /** What the panel receives for a response of the chat route. */
  function Delivered(r: Response): ChatOutcome {
    Replied(r.status, Parsed(r.body))
  }

  /** An answer from the route is shown verbatim. */
  lemma {:induction false} AnswerShown(answer: string, render: Json -> string)
    requires answer != ""
    ensures AiContent(Delivered(Response(200, JObject([("answer", JString(answer))]))), render) == answer
  {
  }

  /** A 500 from the route's catch-all is shown with its details. */
  lemma {:induction false} InternalErrorShown(e: Thrown, render: Json -> string)
    ensures AiContent(Delivered(InternalError(e)), render) == ErrorLine("Internal Server Error", OrDefault(e.message, "Unknown error"))
  {
    var details := JString(OrDefault(e.message, "Unknown error"));
    var body := ErrorDetailsBody("Internal Server Error", details);
    assert InternalError(e) == Response(500, body);
    LookupPair("error", JString("Internal Server Error"), "details", details);
    assert ReplyText(500, body, render) == ErrorLine("Internal Server Error", details.s);
  }

  /** The 400 for a missing question has no details, so the line ends in the fallback. */
  lemma {:induction false} MissingQuestionShown(render: Json -> string)
    ensures AiContent(Delivered(Response(400, ErrorBody("Question is required"))), render) == ErrorLine("Question is required", "Unknown")
  {
    var body := ErrorBody("Question is required");
    assert body.members[1..] == [];
    assert Get(body, "error") == Some(JString("Question is required"));
    assert Get(body, "details") == None;
    assert ReplyText(400, body, render) == ErrorLine("Question is required", "Unknown");
  }

  /** The request body the panel sends. */
  function QuestionBody(question: string): Json {
    JObject([("question", JString(question))])
  }

  /** A question the panel sends is never refused as missing by the route. */
  lemma {:induction false} SentQuestionIsAsked(question: string)
    requires !IsBlank(question)
    ensures Asked(Parsed(QuestionBody(question)))
  {
  }

  /** Pairs of user question and assistant reply, in order; while a reply is pending the last message is the question. */
  ghost predicate Alternates(messages: seq<Message>, pending: bool) {
    && (pending <==> |messages| % 2 == 1)
    && forall i :: 0 <= i < |messages| ==> messages[i].role == if i % 2 == 0 then User else Ai
  }

  /** A message of the role due next keeps the conversation alternating, and flips whether a reply is pending. */
  lemma {:induction false} AlternatesSnoc(messages: seq<Message>, pending: bool, m: Message)
    requires Alternates(messages, pending)
    requires m.role == if |messages| % 2 == 0 then User else Ai
    ensures Alternates(messages + [m], !pending)
  {
  }

  class ChatPanel {
    var isOpen: bool
    var messages: seq<Message>
    var input: string
    var isLoading: bool

    ghost predicate Valid()
      reads this
    {
      Alternates(messages, isLoading)
    }

    constructor()
      ensures Valid()
      ensures !isOpen && messages == [] && input == "" && !isLoading
    {
      isOpen, messages, input, isLoading := false, [], "", false;
    }

    /** The floating button. */
    method Toggle()
      modifies this`isOpen
      ensures isOpen == !old(isOpen)
    {
      isOpen := !isOpen;
    }

    /** The close button in the header. */
    method Close()
      modifies this`isOpen
      ensures !isOpen
    {
      isOpen := false;
    }

    /** Typing into the input, which is disabled while a reply is pending. */
    method TypeInput(text: string)
      modifies this`input
      ensures input == if old(isLoading) then old(input) else text
    {
      if !isLoading {
        input := text;
      }
    }

    /**
     * Enter or the send button: nothing while a reply is pending (both are
     * guarded) or when the input is blank; otherwise the input, untrimmed,
     * becomes a user message and the request body, and the input is cleared.
     */
    method Send() returns (request: Option<Json>)
      requires Valid()
      modifies this`messages, this`input, this`isLoading
      ensures Valid()
      ensures old(isLoading) || IsBlank(old(input)) ==>
        request.None? && messages == old(messages) && input == old(input) && isLoading == old(isLoading)
      ensures !old(isLoading) && !IsBlank(old(input)) ==>
        && request == Some(QuestionBody(old(input)))
        && messages == old(messages) + [Message(User, old(input))]
        && input == ""
        && isLoading
    {
      if isLoading || Trim(input) == "" {
        return None;
      }
      request := Some(QuestionBody(input));
      AlternatesSnoc(messages, isLoading, Message(User, input));
      messages := messages + [Message(User, input)];
      input := "";
      isLoading := true;
    }

    /** The pending request settles: its assistant message is appended and the panel accepts input again. */
    method Settle(outcome: ChatOutcome, render: Json -> string)
      requires Valid() && isLoading
      modifies this`messages, this`isLoading
      ensures Valid()
      ensures messages == old(messages) + [Message(Ai, AiContent(outcome, render))]
      ensures !isLoading
    {
      AlternatesSnoc(messages, isLoading, Message(Ai, AiContent(outcome, render)));
      messages := messages + [Message(Ai, AiContent(outcome, render))];
      isLoading := false;
    }
  }
}
