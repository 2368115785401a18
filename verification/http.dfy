/**
 * The HTTP surface shared by the two edge functions: request bodies as the
 * result of `req.json()`, response status, headers and JSON bodies.
 */
module Http {
  import opened Json

  type Header = (string, string)

  /** The one header every inbound-webhook response carries. */
  const JsonContentType: Header := ("Content-Type", "application/json")

  /** The permissive CORS headers of the registrar (supabase/functions/create-webhook/index.ts:4-8). */
  const CorsHeaders: seq<Header> := [
    ("Access-Control-Allow-Origin", "*"),
    ("Access-Control-Allow-Methods", "POST, OPTIONS"),
    ("Access-Control-Allow-Headers", "Content-Type, Authorization")
  ]

  /**
   * Stands for the message of a TypeError raised by the JavaScript engine itself
   * (destructuring null, calling a missing method, `.toString()` of undefined);
   * its exact wording belongs to the engine.
   */
  const EngineTypeError: string := "TypeError"

  /** The outcome of `await req.json()`: a parsed value, or the parser's exception message. */
  datatype RequestBody = Parsed(value: Json) | Malformed(message: string)

  /** One entry of the inbound handler's `results` list. */
  datatype DispatchResult = DispatchResult(event_id: string, success: bool, error: Option<string>)

  datatype Body =
    | NoBody
    | ErrorBody(error: string)
    | MessageBody(message: string)
    | ProcessedBody(message: string, results: seq<DispatchResult>)
    | RegisteredBody(success: bool, webhookId: Json, webhookUrl: string)

  datatype Response = Response(status: int, headers: seq<Header>, body: Body)

  /**
   * `error.message || fallback`: an exception with an empty message falls back, so
   * with a non-empty fallback every error body carries some text.
   */
  function ErrorText(message: string, fallback: string): (r: string)
    ensures message != "" ==> r == message
    ensures message == "" ==> r == fallback
    ensures fallback != "" ==> r != ""
  {
    if message != "" then message else fallback
  }
}
