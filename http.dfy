/**
 * The request, response and promise shapes that the Express handlers of the
 * service exchange: the JSON values a body holds, the response envelope
 * `{status, message?, data?, errors?}`, what a middleware does with a request
 * (answer it or pass it on) and how its promise settles.
 */
module Http {
  import opened Wrappers
  import opened RainlogTypes

  /**
   * A JSON value of a request body. `JDate` never arrives from a client: it is
   * what the `toDate` sanitizer writes back. Arrays and objects are one opaque
   * `JComposite` value.
   */
  datatype Json = JNull | JBool(b: bool) | JNum(n: real) | JStr(s: string) | JDate(d: Date) | JComposite

  /** One entry of the validation result: the body field, its message and the value seen (absent = `undefined`). */
  datatype FieldError = FieldError(path: string, msg: string, value: Option<Json>)

  /** The `status` word of the response envelope. */
  datatype Status = Success | Fail | Error

  /** The JSON envelope every response carries; `rainlog` is `data.rainlog`. */
  datatype Envelope = Envelope(
    status: Status,
    message: Option<string>,
    rainlog: Option<Rainlog>,
    errors: Option<seq<FieldError>>)

  /** An HTTP response: status code, the `Allow` header when one is set, and the envelope. */
  datatype Response = Response(code: int, allow: Option<string>, body: Envelope)

  /** What a middleware does with the request: call `next()`, or answer it. */
  datatype Effect = Next | Sent(response: Response)

  /**
   * A field of a document that the store refused: a required field without a
   * value (with the schema's message for it), or a value the field's type
   * cannot hold.
   */
  datatype PathError = Required(path: string, message: string) | CastFailed(path: string)

  /** The values a handler's promise can reject with. */
  datatype Failure =
    | FetchFailed                        // the verification call timed out or the network failed
    | MalformedAuthReply                 // the verification reply had no JSON body or no `data`
    | CastToObjectIdFailed(value: string)
    | DocumentInvalid(errors: seq<PathError>)
    | DuplicateKey

  /** How the promise of an async handler settles. */
  datatype Settled = Resolved(effect: Effect) | Rejected(reason: Failure)

  /**
   * The Express request as the rainfall routes see it (`verb` is `req.method`) (the `RequestRainlog`
   * type of src/controllers/authControllers.ts:6-8): the parts the handlers
   * read, the `user` that the authorization gate attaches and the errors that
   * the validation chains record on it.
   */
  class Request {
    var verb: string
    var authorization: Option<string>
    var body: map<string, Json>
    var queryId: Option<string>
    var user: Option<User>
    var validationErrors: seq<FieldError>

    /** A request as it arrives: no user attached and nothing validated yet. */
    constructor (verb: string, authorization: Option<string>, body: map<string, Json>, queryId: Option<string>)
      ensures this.verb == verb && this.authorization == authorization
      ensures this.body == body && this.queryId == queryId
      ensures user == None && validationErrors == []
    {
      this.verb := verb;
      this.authorization := authorization;
      this.body := body;
      this.queryId := queryId;
      user := None;
      validationErrors := [];
    }
  }
}
