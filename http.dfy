/**
 * What the route handlers exchange with the outside world: the response they
 * return, what can be thrown inside their `try` blocks, and the abstract
 * results of the file system, the datastore and the model provider.
 */
module Http {
  import opened Wrappers
  import opened JsonValue

  /** `NextResponse.json(body, { status })`; the default status is 200. */
  datatype Response = Response(status: int, body: Json)

  /** The `response` an OpenAI client error carries. */
  datatype Upstream = Upstream(status: int, data: Json)

  /** A thrown value, seen through the three properties the handlers read: `code`, `response` and `message`. */
  datatype Thrown = Thrown(code: Option<string>, response: Option<Upstream>, message: Option<string>)

  /** `new Error(message)`. */
  function NewError(message: string): Thrown {
    Thrown(None, None, Some(message))
  }

  /** `error.code === 'ENOENT'`: the file does not exist. */
  predicate IsNotFound(e: Thrown) {
    e.code == Some("ENOENT")
  }

  /** `fs.readFile(path, 'utf-8')`: the text, or what it throws. */
  datatype FileRead = FileText(text: string) | FileError(error: Thrown)

  /** A datastore query: its rows, or what it throws. */
  datatype DbResult<T> = Rows(rows: T) | DbFailed(error: Thrown)

  /** A chat-completion call: `choices[0].message.content` (maybe `null`), or what the call throws. */
  datatype Completion = Answered(content: Option<string>) | CallFailed(error: Thrown)

  /** `value || fallback` on a string property that may be missing. */
  function OrDefault(value: Option<string>, fallback: string): (r: string)
    ensures value.Some? && value.value != "" ==> r == value.value
    ensures (value.None? || value.value == "") ==> r == fallback
  {
    if value.Some? && value.value != "" then value.value else fallback
  }

  /** The body `{ error }`. */
  function ErrorBody(error: string): Json {
    JObject([("error", JString(error))])
  }

  /** The body `{ error, details }`. */
  function ErrorDetailsBody(error: string, details: Json): Json {
    JObject([("error", JString(error)), ("details", details)])
  }

  /** `{ error: 'Internal Server Error', details: error.message || 'Unknown error' }` with status 500. */
  function InternalError(e: Thrown): (r: Response)
    ensures r.status == 500
    ensures Get(r.body, "error") == Some(JString("Internal Server Error"))
    ensures Get(r.body, "details") == Some(JString(OrDefault(e.message, "Unknown error")))
  {
    var details := JString(OrDefault(e.message, "Unknown error"));
    LookupPair("error", JString("Internal Server Error"), "details", details);
    Response(500, ErrorDetailsBody("Internal Server Error", details))
  }

  /**
   * The catch-all of the AI routes: an error carrying an upstream `response`
   * is answered with that response's status and data, any other with 500.
   */
  function UpstreamOrInternal(e: Thrown): (r: Response)
    ensures e.response.Some? ==>
              && r.status == e.response.value.status
              && Get(r.body, "error") == Some(JString("OpenAI API Error"))
              && Get(r.body, "details") == Some(e.response.value.data)
    ensures e.response.None? ==> r == InternalError(e)
  {
    match e.response
    case Some(upstream) =>
      LookupPair("error", JString("OpenAI API Error"), "details", upstream.data);
      Response(upstream.status, ErrorDetailsBody("OpenAI API Error", upstream.data))
    case None => InternalError(e)
  }
}
