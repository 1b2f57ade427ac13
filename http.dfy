/**
 * The Lambda proxy event and response shapes the handlers read and return,
 * the fixed CORS headers, the thrown JavaScript errors, and the catch block
 * that turns a thrown error into a response.
 */
module Http {
  import opened Results
  import opened JsValues

  /** A thrown JavaScript error: its constructor name and its message. */
  datatype JsError = JsError(name: string, message: string)

  /** What `JSON.parse(event.body)` gives: a value, or a `SyntaxError` whose
      message is opaque here. A missing body parses as `null`. */
  datatype RequestBody = Parsed(value: Value) | Malformed(message: string)

  /** The parts of the Lambda proxy event the handlers read. `None` stands for
      a `null` `pathParameters` or `queryStringParameters`. */
  datatype Request = Request(
    httpMethod: string,
    pathParams: Option<map<string, string>>,
    query: Option<map<string, string>>,
    body: RequestBody)

  /** The JSON a response carries: one record, the records of a scan (their
      order is not modelled), `{error}`, or `{error, details}`. */
  datatype Body =
    | One(item: Record)
    | Many(items: set<Record>)
    | ErrorMessage(error: string)
    | ErrorDetails(error: string, details: string)

  /** `{statusCode, headers, body}`; `None` is an absent (undefined) body. */
  datatype Response = Response(status: int, headers: map<string, string>, body: Option<Body>)

  /** The three CORS headers every handler attaches to every response. */
  const Cors: map<string, string> := map[
    "Access-Control-Allow-Origin" := "*",
    "Access-Control-Allow-Headers" := "Content-Type",
    "Access-Control-Allow-Methods" := "GET,POST,PUT,DELETE"]

  const UnsupportedMethod: string := "Unsupported method"

  /** The only error name the catch block maps to 400. */
  const ValidationErrorName: string := "ValidationError"

  /** `new Error(message)`: a plain error, whose name is "Error". */
  function PlainError(message: string): (e: JsError)
    ensures e.name == "Error" && e.name != ValidationErrorName
    ensures e.message == message
  {
    JsError("Error", message)
  }

  /** The `TypeError` thrown by reading property `f` of `null` or `undefined`. */
  function NullRead(what: Value, f: string): (e: JsError)
    ensures e.name == "TypeError"
  {
    JsError("TypeError",
      "Cannot read properties of " + (if what.Null? then "null" else "undefined")
      + " (reading '" + f + "')")
  }

  /** The catch block: status 400 only for an error named "ValidationError",
      500 for every other error; the body is `{error: message, details: stack}`,
      with the stack trace kept opaque as `trace`. */
  function ErrorResponse(e: JsError, trace: string): (r: Response)
    ensures r.status == 400 <==> e.name == ValidationErrorName
    ensures r.status == 500 <==> e.name != ValidationErrorName
    ensures r.headers == Cors
    ensures r.body == Some(ErrorDetails(e.message, trace))
  {
    Response(if e.name == ValidationErrorName then 400 else 500, Cors,
      Some(ErrorDetails(e.message, trace)))
  }

  /** `pathParameters?.name` (or `queryStringParameters?.name`): the string
      parameter, or `undefined` when the object is null or lacks it. */
  function Param(params: Option<map<string, string>>, name: string): Value {
    if params.Some? && name in params.value then Str(params.value[name]) else Undefined
  }
}
