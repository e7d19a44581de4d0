/**
 * Types shared by the registry and the router: HTTP methods, the parts of a
 * request and a response the router looks at, middleware identities and what
 * a middleware does when it is invoked.
 */
module Http {

  /** Identity of a controller class (the `constructor` object metadata is keyed by). */
  type ClassId = nat

  /**
   * A controller instance: its class and the names of its members whose value
   * is a function (and so can be bound and used as a terminal handler).
   */
  datatype Controller = Controller(cls: ClassId, methods: set<string>)

  /** The verbs a route can be declared with. */
  datatype HttpMethod = GET | POST | PUT | PATCH | DELETE | OPTIONS | HEAD
  {
    /** The verb as it appears on the wire; always upper case. */
    function Name(): string
    {
      match this
      case GET => "GET"
      case POST => "POST"
      case PUT => "PUT"
      case PATCH => "PATCH"
      case DELETE => "DELETE"
      case OPTIONS => "OPTIONS"
      case HEAD => "HEAD"
    }
  }

  /** The two fields of an incoming request the router reads (`method`, `nextUrl.pathname`). */
  datatype Request = Request(verb: string, pathname: string)

  /** Captured named path segments. */
  type Params = map<string, string>

  /** JSON values that occur in the router's own response bodies. */
  datatype Json = JBool(b: bool) | JString(s: string)

  /** A JSON response: a status code and a top-level JSON object. */
  datatype Response = Response(status: int, body: map<string, Json>)

  /** Values a step can throw: the built-in errors the router can raise, or one raised by user code. */
  datatype Error = TypeError | RangeError | URIError | Raised(code: nat)

  /** How a promise produced by the router settles. */
  datatype Outcome = Returned(response: Response) | Threw(error: Error)

  /**
   * One entry of a handler chain: a middleware function, identified by the
   * value registered for it, or a controller method bound to its instance.
   */
  datatype Middleware = Fn(id: nat) | BoundHandler(cls: ClassId, name: string)

  /**
   * What a step does when it is invoked: produce a response of its own,
   * throw, or return whatever its `next` continuation produces.
   */
  datatype Action = Respond(response: Response) | Throw(error: Error) | CallNext

  const NOT_FOUND: int := 404
  const INTERNAL_SERVER_ERROR: int := 500
  const INTERNAL_SERVER_ERROR_PHRASE: string := "Internal Server Error"
}
