/** What the two edge functions share: the request as they read it, the
    errors they can raise, and the responses they send. */
module Http {
  import opened Wrappers
  import opened JsonValues

  /** An incoming request: its method (`verb`), and what `req.json()` settles to (a
      parsed value, or the message of the error it rejects with). */
  datatype Request = Request(verb: string, payload: Result<Json, string>)

  /** An error thrown inside a handler's `try`. */
  datatype Fault =
    | Raised(message: string)       // `throw new Error(message)` in the handler
    | Foreign(message: string)      // an error from `req.json()` or the model call
    | NotDefined(name: string)      // `ReferenceError`: an identifier never bound
    | NullDestructure               // `TypeError`: destructuring `null`
    | ReadOfNullish(key: string)    // `TypeError`: reading `key` of `null` or `undefined`
    | InOnPrimitive(key: string)    // `TypeError`: `key in v` where `v` is not an object

  /** `error.message` when the handler or the caller decides the text;
      `None` for the runtime's own `TypeError` texts. */
  function FaultMessage(f: Fault): Option<string>
  {
    match f
    case Raised(m) => Some(m)
    case Foreign(m) => Some(m)
    case NotDefined(name) => Some(name + " is not defined")
    case _ => None
  }

  /** A response body: plain text, `JSON.stringify(value)`, or the JSON
      object `{ error: message }` of a fault. */
  datatype Body = Text(text: string) | Data(value: Json) | ErrorOf(fault: Fault)

  /** Every response carries the CORS headers; `Data` and `ErrorOf` bodies
      are sent as `application/json`. */
  datatype Response = Response(status: int, body: Body)

  /** The reply to a CORS preflight. */
  const Preflight := Response(200, Text("ok"))

  /** The outer `catch`: status 500 and the fault's message. */
  function ErrorResponse(f: Fault): (r: Response)
    ensures r.status == 500 && r.body.ErrorOf? && r.body.fault == f
  {
    Response(500, ErrorOf(f))
  }

  /** What the model call settles to: it throws (with the error's message),
      or it replies with text that `JSON.parse` reads as `parsed` (`None`
      when the text is not JSON). */
  datatype ModelReply = Threw(message: string) | Replied(parsed: Option<Json>)
}
