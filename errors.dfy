/**
 * The client's error values (errors.go) and the errors its operations build with
 * fmt.Errorf. `Text` is Go's `Error()` method, `Unwrap` the `Unwrap()` method that
 * errors.Is and errors.As follow.
 */
module Errors {

  import opened Wrappers
  import opened Strings

  datatype Error =
      /** The sentinel errors of errors.go:9-27. */
    | NoBaseURL
    | NoToken
    | NotFound
    | Unauthorized
    | BadRequest
    | MethodNotAllowed
      /** An error response of the REST API (errors.go:30-35). */
    | API(statusCode: int, status: string, message: string, body: string)
      /** A failure while making a request (errors.go:49-52). */
    | Request(op: string, err: Error)
      /** A structured error answered over the WebSocket channel (websocket.go:52-55). */
    | WebSocket(code: string, message: string)
      /** fmt.Errorf(prefix + "%w" + suffix, inner): the text around one wrapped error. */
    | Wrapped(prefix: string, inner: Error, suffix: string)
      /** errors.New or fmt.Errorf without %w. */
    | Plain(text: string)
      /** An error produced by a library outside the model (network, JSON, context, fmt scanning). */
    | Library(text: string)

  /** The fixed part of every APIError text: "API error <code> (<status>)". */
  function APIErrorHead(statusCode: int, status: string): string {
    "API error " + IntToString(statusCode) + " (" + status + ")"
  }

  /** APIError.Error: the message wins over the body, and neither is shown when both are empty. */
  function APIErrorText(statusCode: int, status: string, message: string, body: string): (r: string)
    ensures HasPrefix(r, APIErrorHead(statusCode, status))
    ensures message != "" ==> r == APIErrorHead(statusCode, status) + ": " + message
    ensures message == "" && body != "" ==> r == APIErrorHead(statusCode, status) + ": " + body
    ensures message == "" && body == "" ==> r == APIErrorHead(statusCode, status)
  {
    var head := APIErrorHead(statusCode, status);
    if message != "" then head + ": " + message
    else if body != "" then head + ": " + body
    else head
  }

  /** A non-empty message hides the body completely. */
  lemma APIMessageHidesBody(statusCode: int, status: string, message: string, body1: string, body2: string)
    requires message != ""
    ensures APIErrorText(statusCode, status, message, body1) == APIErrorText(statusCode, status, message, body2)
  {
  }

  /** WebSocketError.Error */
  function WebSocketErrorText(code: string, message: string): (r: string)
    ensures HasPrefix(r, "websocket error [")
    ensures HasSuffix(r, "]: " + message)
  {
    "websocket error [" + code + "]: " + message
  }

  /** Error() of every error value. */
  function Text(e: Error): string {
    match e
    case NoBaseURL => "base URL is required"
    case NoToken => "authentication token is required"
    case NotFound => "resource not found"
    case Unauthorized => "unauthorized: invalid or missing token"
    case BadRequest => "bad request"
    case MethodNotAllowed => "method not allowed"
    case API(code, status, message, body) => APIErrorText(code, status, message, body)
    case Request(op, err) => op + ": " + Text(err)
    case WebSocket(code, message) => WebSocketErrorText(code, message)
    case Wrapped(prefix, inner, suffix) => prefix + Text(inner) + suffix
    case Plain(text) => text
    case Library(text) => text
  }

  /** Unwrap(): only RequestError and %w-wrapped errors have an underlying error. */
  function Unwrap(e: Error): (r: Option<Error>)
    ensures r.Some? <==> e.Request? || e.Wrapped?
    ensures r.Some? ==> r.value < e
  {
    match e
    case Request(_, err) => Some(err)
    case Wrapped(_, inner, _) => Some(inner)
    case _ => None
  }

  /** errors.Is: `target` is `e` itself or is found by unwrapping `e` repeatedly. */
  predicate Is(e: Error, target: Error)
    decreases e
  {
    e == target || match Unwrap(e) { case Some(inner) => Is(inner, target) case None => false }
  }

  /** RequestError prints "<op>: <err>" and unwraps to exactly the error it carries. */
  lemma RequestErrorUnwraps(op: string, err: Error, target: Error)
    ensures Text(Request(op, err)) == op + ": " + Text(err)
    ensures Unwrap(Request(op, err)) == Some(err)
    ensures Is(err, target) ==> Is(Request(op, err), target)
  {
  }

  /** Wrapping with %w keeps every error reachable by errors.Is, however deep. */
  lemma {:induction false} IsSurvivesWrapping(e: Error, wrappers: seq<(string, string)>, target: Error)
    requires Is(e, target)
    ensures Is(WrapAll(e, wrappers), target)
    decreases |wrappers|
  {
    if wrappers != [] {
      IsSurvivesWrapping(e, wrappers[1..], target);
    }
  }

  /** Wraps `e` once per (prefix, suffix) pair, the first pair outermost. */
  function WrapAll(e: Error, wrappers: seq<(string, string)>): Error
    decreases |wrappers|
  {
    if wrappers == [] then e
    else Wrapped(wrappers[0].0, WrapAll(e, wrappers[1..]), wrappers[0].1)
  }
}
