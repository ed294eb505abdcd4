/**
 * The WebSocket RPC layer (websocket.go): the URL the client dials, the authentication
 * handshake, the registry that correlates command ids with waiting callers, the reader
 * that dispatches responses, and the classification of a response.
 *
 * The network connection is a `Conn` whose incoming messages are scripted in advance
 * and whose outgoing messages are logged. Goroutines and channels become separate
 * steps (`Send`, `Deliver`, `Await`, `Close`) that a caller may interleave in any
 * order, and the reader loop (`Reader`) runs over the whole scripted inbox. The
 * `select` of sendCommand becomes `SelectOutcome`, with a `pick` standing for the
 * runtime's choice among ready arms.
 */
module WebSocket {

  import opened Wrappers
  import opened Strings
  import opened Json
  import opened Errors

  /** wsError: the structured error of a failed command. */
  datatype WsError = WsError(code: string, message: string)

  /** wsResponse, with an absent field at its zero value; `result` is None when absent. */
  datatype Response = Response(
    id: int,
    kind: string,
    success: bool,
    result: Option<Value>,
    error: Option<WsError>,
    haVersion: string,
    message: string)

  /** What one ReadJSON yields: a decoded message, or a read or decode error. */
  datatype Inbound = Frame(resp: Response) | ReadFailure(text: string)

  /** How the server answers a dial: refused, or accepted with everything it will send. */
  datatype Peer = Refused(reason: string) | Accepted(inbox: seq<Inbound>, writeFailure: Option<string>)

  /** A command after json.Marshal and json.Unmarshal into a map, or the step that failed. */
  datatype Encoded = Encoded(obj: map<string, Value>) | MarshalFailed(text: string) | UnmarshalFailed(text: string)

  /** The error of reading or writing a closed or exhausted connection. */
  const ConnectionClosed: Error := Library("use of closed network connection")

  /** What ReadJSON returns for a connection in the given state. */
  function NextRead(inbox: seq<Inbound>, closed: bool): Result<Response, Error> {
    if closed || inbox == [] then Failure(ConnectionClosed)
    else match inbox[0]
      case Frame(resp) => Success(resp)
      case ReadFailure(text) => Failure(Library(text))
  }

  /** How many inbound messages that ReadJSON consumes. */
  function ReadCount(inbox: seq<Inbound>, closed: bool): (n: nat)
    ensures n <= |inbox|
  {
    if closed || inbox == [] then 0 else 1
  }

  /** What WriteJSON returns. */
  function WriteOutcome(closed: bool, writeFailure: Option<string>): Option<Error> {
    if closed then Some(ConnectionClosed)
    else match writeFailure
      case Some(text) => Some(Library(text))
      case None => None
  }

  /** A gorilla/websocket connection: the messages still to come, and those written. */
  class Conn {
    const url: string
    var inbox: seq<Inbound>
    const writeFailure: Option<string>
    var sent: seq<map<string, Value>>
    var closed: bool

    constructor(url: string, inbox: seq<Inbound>, writeFailure: Option<string>)
      ensures this.url == url && this.inbox == inbox && this.writeFailure == writeFailure
      ensures sent == [] && !closed
    {
      this.url := url;
      this.inbox := inbox;
      this.writeFailure := writeFailure;
      sent := [];
      closed := false;
    }

    method ReadJSON() returns (r: Result<Response, Error>)
      modifies this
      ensures r == NextRead(old(inbox), old(closed))
      ensures inbox == old(inbox)[ReadCount(old(inbox), old(closed))..]
      ensures sent == old(sent) && closed == old(closed)
    {
      r := NextRead(inbox, closed);
      inbox := inbox[ReadCount(inbox, closed)..];
    }

    method WriteJSON(msg: map<string, Value>) returns (err: Option<Error>)
      modifies this
      ensures err == WriteOutcome(old(closed), writeFailure)
      ensures sent == if err.None? then old(sent) + [msg] else old(sent)
      ensures inbox == old(inbox) && closed == old(closed)
    {
      err := WriteOutcome(closed, writeFailure);
      if err.None? {
        sent := sent + [msg];
      }
    }

    method Close()
      modifies this
      ensures closed
      ensures inbox == old(inbox) && sent == old(sent)
    {
      closed := true;
    }
  }

  /** The buffered channel of capacity one on which a caller waits for its response. */
  class Waiter {
    var slot: Option<Response>

    constructor()
      ensures slot.None?
    {
      slot := None;
    }
  }

  /* ---------------------------------------------------------------- URL */

  /**
   * A parsed URL: the parts buildWebSocketURL changes (scheme, path) and the parts
   * url.URL.String writes back unchanged (host, ForceQuery, RawQuery, Fragment).
   */
  datatype URL = URL(scheme: string, host: string, path: string, forceQuery: bool, query: string, fragment: string)

  /** What url.URL.String writes after the path: "?" and the query, then "#" and the fragment. */
  function URLTail(u: URL): string {
    (if u.forceQuery || u.query != "" then "?" + u.query else "")
      + (if u.fragment != "" then "#" + u.fragment else "")
  }

  /** No query, no forced "?" and no fragment: the URL text ends with its path. */
  predicate PlainURL(u: URL) {
    !u.forceQuery && u.query == "" && u.fragment == ""
  }

  /** url.URL.String for this URL (no escaping). */
  function URLString(u: URL): string {
    u.scheme + "://" + u.host + u.path + URLTail(u)
  }

  /** The WebSocket scheme of an HTTP scheme (section 3 of RFC 6455). */
  function WsScheme(scheme: string): (r: Result<string, Error>)
    ensures scheme == "http" ==> r == Success("ws")
    ensures scheme == "https" ==> r == Success("wss")
    ensures scheme !in {"http", "https"} ==> r == Failure(Plain("unsupported scheme: " + scheme))
  {
    if scheme == "http" then Success("ws")
    else if scheme == "https" then Success("wss")
    else Failure(Plain("unsupported scheme: " + scheme))
  }

  /** The path of the WebSocket endpoint under the base URL's path. */
  function EndpointPath(path: string): (r: string)
    ensures HasSuffix(r, "/api/websocket")
    ensures HasSuffix(path, "/") ==> r == path[..|path| - 1] + "/api/websocket"
    ensures !HasSuffix(path, "/") ==> r == path + "/api/websocket"
  {
    var r := TrimSuffix(path, "/") + "/api/websocket";
    assert r[|r| - |"/api/websocket"|..] == "/api/websocket";
    r
  }

  /**
   * buildWebSocketURL. `parse` stands for url.Parse. The scheme is swapped, one
   * trailing slash of the path dropped and /api/websocket appended; host, query,
   * forced "?" and fragment are kept.
   */
  function BuildWebSocketURL(baseURL: string, parse: string -> Result<URL, Error>): (r: Result<string, Error>)
    ensures parse(baseURL).Failure? ==> r == Failure(parse(baseURL).error)
    ensures parse(baseURL).Success? && parse(baseURL).value.scheme !in {"http", "https"} ==>
      r == Failure(Plain("unsupported scheme: " + parse(baseURL).value.scheme))
    ensures r.Success? <==> parse(baseURL).Success? && parse(baseURL).value.scheme in {"http", "https"}
    ensures r.Success? ==>
      var u := parse(baseURL).value;
      r.value == WsScheme(u.scheme).value + "://" + u.host + EndpointPath(u.path) + URLTail(u)
  {
    var u :- parse(baseURL);
    var scheme :- WsScheme(u.scheme);
    Success(URLString(u.(scheme := scheme, path := EndpointPath(u.path))))
  }

  /** A URL's text starts with its scheme and host, and ends with its path when it is plain. */
  lemma URLStringShape(u: URL)
    ensures HasPrefix(URLString(u), u.scheme + "://" + u.host)
    ensures PlainURL(u) ==> URLString(u) == (u.scheme + "://" + u.host) + u.path
  {
    var head := u.scheme + "://" + u.host;
    var tail := u.path + URLTail(u);
    assert URLString(u) == head + tail;
    assert (head + tail)[..|head|] == head;
  }

  lemma SuffixOfConcat(a: string, b: string, suffix: string)
    requires HasSuffix(b, suffix)
    ensures HasSuffix(a + b, suffix)
  {
    assert (a + b)[|a + b| - |suffix|..] == b[|b| - |suffix|..];
  }

  /** http becomes ws and https becomes wss, and the result ends in the endpoint path for a plain URL. */
  lemma WebSocketURLShape(baseURL: string, parse: string -> Result<URL, Error>)
    requires BuildWebSocketURL(baseURL, parse).Success?
    ensures var u := parse(baseURL).value; var r := BuildWebSocketURL(baseURL, parse).value;
      && (u.scheme == "http" ==> HasPrefix(r, "ws://" + u.host))
      && (u.scheme == "https" ==> HasPrefix(r, "wss://" + u.host))
      && (PlainURL(u) ==> HasSuffix(r, "/api/websocket"))
  {
    var u := parse(baseURL).value;
    var head := WsScheme(u.scheme).value + "://" + u.host;
    var tail := EndpointPath(u.path) + URLTail(u);
    assert BuildWebSocketURL(baseURL, parse).value == head + tail;
    assert (head + tail)[..|head|] == head;
    if PlainURL(u) {
      assert tail == EndpointPath(u.path);
      SuffixOfConcat(head, tail, "/api/websocket");
    }
  }

  /** Without query or fragment, the endpoint URL is the new scheme, "://", the host and the endpoint path. */
  lemma WebSocketURLWithoutQuery(baseURL: string, parse: string -> Result<URL, Error>)
    requires parse(baseURL).Success? && parse(baseURL).value.scheme in {"http", "https"}
    requires PlainURL(parse(baseURL).value)
    ensures var u := parse(baseURL).value;
      BuildWebSocketURL(baseURL, parse) == Success(WsScheme(u.scheme).value + "://" + u.host + EndpointPath(u.path))
  {
    var u := parse(baseURL).value;
    var plain := WsScheme(u.scheme).value + "://" + u.host + EndpointPath(u.path);
    assert URLTail(u) == "";
    assert plain + URLTail(u) == plain;
  }

  /** A fragment survives after the endpoint path. */
  lemma FragmentKept(parse: string -> Result<URL, Error>)
    requires parse("http://h/#x") == Success(URL("http", "h", "/", false, "", "x"))
    ensures BuildWebSocketURL("http://h/#x", parse) == Success("ws://h/api/websocket#x")
  {
    var u := parse("http://h/#x").value;
    var r := BuildWebSocketURL("http://h/#x", parse).value;
    assert r == "ws" + "://" + "h" + EndpointPath("/") + URLTail(u);
    EndpointOfRoot();
    assert URLTail(u) == "#x";
    FragmentText();
  }

  lemma FragmentText()
    ensures "ws" + "://" + "h" + "/api/websocket" + "#x" == "ws://h/api/websocket#x"
  {
  }

  /** A bare "?", which url.Parse records as ForceQuery, survives after the endpoint path. */
  lemma ForcedQueryKept(parse: string -> Result<URL, Error>)
    requires parse("http://h/?") == Success(URL("http", "h", "/", true, "", ""))
    ensures BuildWebSocketURL("http://h/?", parse) == Success("ws://h/api/websocket?")
  {
    var endpoint := "ws" + "://" + "h" + EndpointPath("/");
    assert endpoint == "ws://h/api/websocket" by {
      EndpointOfRoot();
    }
    assert URLTail(parse("http://h/?").value) == "?";
    assert "ws://h/api/websocket" + "?" == "ws://h/api/websocket?";
  }

  /** The endpoint path of a base URL with no path, or with only a slash. */
  lemma EndpointOfRoot()
    ensures EndpointPath("") == "/api/websocket" && EndpointPath("/") == "/api/websocket"
  {
    assert TrimSuffix("", "/") == "";
    assert TrimSuffix("/", "/") == "";
  }

  lemma LocalText()
    ensures "ws" + "://" + "localhost:8123" + "/api/websocket" == "ws://localhost:8123/api/websocket"
  {
  }

  lemma SecureText()
    ensures "wss" + "://" + "ha.example.com" + "/api/websocket" == "wss://ha.example.com/api/websocket"
  {
  }

  /** The local base URL of the client's tests, with and without a trailing slash. */
  lemma LocalWebSocketURL(parse: string -> Result<URL, Error>)
    requires parse("http://localhost:8123") == Success(URL("http", "localhost:8123", "", false, "", ""))
    requires parse("http://localhost:8123/") == Success(URL("http", "localhost:8123", "/", false, "", ""))
    ensures BuildWebSocketURL("http://localhost:8123", parse) == Success("ws://localhost:8123/api/websocket")
    ensures BuildWebSocketURL("http://localhost:8123/", parse) == Success("ws://localhost:8123/api/websocket")
  {
    WebSocketURLWithoutQuery("http://localhost:8123", parse);
    WebSocketURLWithoutQuery("http://localhost:8123/", parse);
    EndpointOfRoot();
    LocalText();
  }

  /** An https base URL gives a wss endpoint. */
  lemma SecureWebSocketURL(parse: string -> Result<URL, Error>)
    requires parse("https://ha.example.com") == Success(URL("https", "ha.example.com", "", false, "", ""))
    ensures BuildWebSocketURL("https://ha.example.com", parse) == Success("wss://ha.example.com/api/websocket")
  {
    WebSocketURLWithoutQuery("https://ha.example.com", parse);
    EndpointOfRoot();
    SecureText();
  }

  /** Any other scheme is refused by name. */
  lemma FtpWebSocketURL(parse: string -> Result<URL, Error>)
    requires parse("ftp://host") == Success(URL("ftp", "host", "", false, "", ""))
    ensures BuildWebSocketURL("ftp://host", parse) == Failure(Plain("unsupported scheme: ftp"))
  {
    assert "unsupported scheme: " + "ftp" == "unsupported scheme: ftp";
  }

  /* ---------------------------------------------------------------- authentication */

  /** The auth message of the handshake. */
  function AuthMessage(token: string): map<string, Value> {
    map["type" := Str("auth"), "access_token" := Str(token)]
  }

  /** The verdict of the server's answer to the auth message. */
  function AuthResponseError(resp: Response): (r: Option<Error>)
    ensures r.None? <==> resp.kind == "auth_ok"
    ensures resp.kind == "auth_invalid" && resp.message != "" ==> r == Some(Plain("auth failed: " + resp.message))
    ensures resp.kind == "auth_invalid" && resp.message == "" ==> r == Some(Plain("auth failed: invalid authentication"))
    ensures resp.kind !in {"auth_ok", "auth_invalid"} ==> r == Some(Plain("unexpected auth response: " + resp.kind))
  {
    match resp.kind
    case "auth_ok" => None
    case "auth_invalid" =>
      var msg := if resp.message == "" then "invalid authentication" else resp.message;
      assert "auth failed: " + "invalid authentication" == "auth failed: invalid authentication";
      Some(Plain("auth failed: " + msg))
    case _ => Some(Plain("unexpected auth response: " + resp.kind))
  }

  /** What the handshake returns, whether it wrote the auth message, and how many messages it read. */
  datatype Handshaken = Handshaken(err: Option<Error>, wroteAuth: bool, consumed: nat)

  /** authenticate, on a connection with the given state. */
  function Handshake(inbox: seq<Inbound>, closed: bool, writeFailure: Option<string>, token: string): (h: Handshaken)
    ensures h.consumed <= |inbox|
    ensures h.wroteAuth ==> NextRead(inbox, closed).Success? && NextRead(inbox, closed).value.kind == "auth_required"
    ensures h.err.None? ==> h.wroteAuth
  {
    var n := ReadCount(inbox, closed);
    match NextRead(inbox, closed)
    case Failure(e) => Handshaken(Some(Wrapped("read auth_required: ", e, "")), false, n)
    case Success(req) =>
      if req.kind != "auth_required" then
        Handshaken(Some(Plain("expected auth_required, got " + req.kind)), false, n)
      else
        match WriteOutcome(closed, writeFailure)
        case Some(e) => Handshaken(Some(Wrapped("write auth: ", e, "")), false, n)
        case None =>
          var rest := inbox[n..];
          var m := n + ReadCount(rest, closed);
          match NextRead(rest, closed)
          case Failure(e) => Handshaken(Some(Wrapped("read auth response: ", e, "")), true, m)
          case Success(resp) => Handshaken(AuthResponseError(resp), true, m)
  }

  /** A first message other than auth_required ends the handshake before the token is sent. */
  lemma NoCredentialsBeforeAuthRequired(first: Response, rest: seq<Inbound>, writeFailure: Option<string>, token: string)
    requires first.kind != "auth_required"
    ensures Handshake([Frame(first)] + rest, false, writeFailure, token)
      == Handshaken(Some(Plain("expected auth_required, got " + first.kind)), false, 1)
  {
  }

  /**
   * The usual exchange: after auth_required the token is written exactly once, two
   * messages are read, and the server's answer decides.
   */
  lemma HandshakeExchange(req: Response, resp: Response, rest: seq<Inbound>, token: string)
    requires req.kind == "auth_required"
    ensures Handshake([Frame(req), Frame(resp)] + rest, false, None, token)
      == Handshaken(AuthResponseError(resp), true, 2)
  {
    var inbox := [Frame(req), Frame(resp)] + rest;
    assert inbox[1..][0] == Frame(resp);
  }

  /* ---------------------------------------------------------------- responses */

  /** The outcome of a response delivered to its caller. */
  function Classify(resp: Response): (r: Result<Response, Error>)
    ensures resp.error.Some? ==> r == Failure(WebSocket(resp.error.value.code, resp.error.value.message))
    ensures resp.error.None? && !resp.success && resp.kind == "result" ==> r == Failure(Plain("command failed"))
    ensures r.Success? <==> resp.error.None? && (resp.success || resp.kind != "result")
    ensures r.Success? ==> r.value == resp
  {
    match resp.error
    case Some(e) => Failure(WebSocket(e.code, e.message))
    case None => if !resp.success && resp.kind == "result" then Failure(Plain("command failed")) else Success(resp)
  }

  /** A structured error wins over `success` and prints as "websocket error [code]: message". */
  lemma ErrorWinsOverSuccess(resp: Response)
    requires resp.error.Some?
    ensures Classify(resp) == Classify(resp.(success := true))
    ensures Text(Classify(resp).error) == "websocket error [" + resp.error.value.code + "]: " + resp.error.value.message
  {
  }

  /** The arms of sendCommand's select, in source order. */
  datatype Arm = Cancelled | Closed | Responded

  /** The arm the select takes: `pick` when it is ready, else the first ready arm; None blocks. */
  function Chosen(ctxErr: Option<Error>, done: bool, slot: Option<Response>, pick: Arm): (a: Option<Arm>)
    ensures a.None? <==> ctxErr.None? && !done && slot.None?
    ensures a == Some(Cancelled) ==> ctxErr.Some?
    ensures a == Some(Closed) ==> done
    ensures a == Some(Responded) ==> slot.Some?
  {
    var ready := (pick == Cancelled && ctxErr.Some?) || (pick == Closed && done) || (pick == Responded && slot.Some?);
    if ready then Some(pick)
    else if ctxErr.Some? then Some(Cancelled)
    else if done then Some(Closed)
    else if slot.Some? then Some(Responded)
    else None
  }

  /** What sendCommand returns from its select; None while no arm is ready. */
  function SelectOutcome(ctxErr: Option<Error>, done: bool, slot: Option<Response>, pick: Arm): (r: Option<Result<Response, Error>>)
    ensures r.None? <==> ctxErr.None? && !done && slot.None?
    ensures r.Some? && r.value.Success? ==> slot.Some? && r.value == Classify(slot.value)
    ensures ctxErr.None? && !done && slot.Some? ==> r == Some(Classify(slot.value))
    ensures ctxErr.None? && done && slot.None? ==> r == Some(Failure(Plain("websocket connection closed")))
    ensures ctxErr.Some? && !done && slot.None? ==> r == Some(Failure(ctxErr.value))
  {
    match Chosen(ctxErr, done, slot, pick)
    case None => None
    case Some(Cancelled) => Some(Failure(ctxErr.value))
    case Some(Closed) => Some(Failure(Plain("websocket connection closed")))
    case Some(Responded) => Some(Classify(slot.value))
  }

  /**
   * wsCommand's decoding of the result: only when the caller asked for one and the
   * response carries it. `decode` stands for json.Unmarshal into the caller's value.
   */
  function DecodeResult(wanted: bool, result: Option<Value>, decode: Value -> Option<Error>): (r: Option<Error>)
    ensures !wanted || result.None? ==> r.None?
    ensures wanted && result.Some? ==>
      r == (match decode(result.value) case Some(e) => Some(Wrapped("decode result: ", e, "")) case None => None)
  {
    if wanted && result.Some? then
      match decode(result.value)
      case Some(e) => Some(Wrapped("decode result: ", e, ""))
      case None => None
    else None
  }

  /** The error sendCommand returns before waiting, from the encoding and the write. */
  function SendError(cmd: Encoded, writeErr: Option<Error>): (r: Option<Error>)
    ensures r.None? <==> cmd.Encoded? && writeErr.None?
  {
    match cmd
    case MarshalFailed(text) => Some(Wrapped("marshal command: ", Library(text), ""))
    case UnmarshalFailed(text) => Some(Wrapped("unmarshal command: ", Library(text), ""))
    case Encoded(_) =>
      match writeErr
      case Some(e) => Some(Wrapped("write command: ", e, ""))
      case None => None
  }

  /* ---------------------------------------------------------------- dispatch */

  /**
   * The responses the reader hands out for `frames` read in order, when `keys` are
   * pending: each pending id gets the first frame that carries it; id 0 and unknown
   * ids get nothing.
   */
  function Dispatch(keys: set<int>, frames: seq<Response>): (d: map<int, Response>)
    ensures d.Keys <= keys
    ensures forall i :: i in d ==> i != 0 && d[i].id == i && d[i] in frames
  {
    if frames == [] then map[]
    else
      var d := Dispatch(keys, frames[..|frames| - 1]);
      var f := frames[|frames| - 1];
      if f.id != 0 && f.id in keys && f.id !in d then d[f.id := f] else d
  }

  /** A pending id that some frame carries is served, by the first such frame. */
  lemma {:induction false} DispatchFirst(keys: set<int>, frames: seq<Response>, k: nat)
    requires k < |frames| && frames[k].id != 0 && frames[k].id in keys
    requires forall j :: 0 <= j < k ==> frames[j].id != frames[k].id
    ensures frames[k].id in Dispatch(keys, frames)
    ensures Dispatch(keys, frames)[frames[k].id] == frames[k]
    decreases |frames|
  {
    var init := frames[..|frames| - 1];
    if k < |frames| - 1 {
      DispatchFirst(keys, init, k);
    }
  }

  /** Whatever is served for an id is the first frame carrying it. */
  lemma {:induction false} DispatchSource(keys: set<int>, frames: seq<Response>, i: int)
    requires i in Dispatch(keys, frames)
    ensures exists k :: 0 <= k < |frames| && frames[k] == Dispatch(keys, frames)[i] &&
                       (forall j :: 0 <= j < k ==> frames[j].id != i)
    decreases |frames|
  {
    var init := frames[..|frames| - 1];
    var f := frames[|frames| - 1];
    var d := Dispatch(keys, init);
    assert Dispatch(keys, frames) == if f.id != 0 && f.id in keys && f.id !in d then d[f.id := f] else d;
    if i in d {
      assert Dispatch(keys, frames)[i] == d[i];
      DispatchSource(keys, init, i);
      var k :| 0 <= k < |init| && init[k] == d[i] && forall j :: 0 <= j < k ==> init[j].id != i;
      forall j | 0 <= j < k
        ensures frames[j].id != i
      {
        assert frames[j] == init[j];
      }
      assert frames[k] == init[k];
    } else {
      assert i == f.id && Dispatch(keys, frames)[i] == f;
      var k := |frames| - 1;
      forall j | 0 <= j < k
        ensures frames[j].id != i
      {
        if frames[j].id == i {
          assert init[j].id == i;
          DispatchMisses(keys, init, i, j);
        }
      }
      assert frames[k] == f;
    }
  }

  /** A pending id that a frame carries is served. */
  lemma {:induction false} DispatchMisses(keys: set<int>, frames: seq<Response>, i: int, j: nat)
    requires j < |frames| && frames[j].id == i && i != 0 && i in keys
    ensures i in Dispatch(keys, frames)
    decreases |frames|
  {
    var init := frames[..|frames| - 1];
    if j < |frames| - 1 {
      assert init[j] == frames[j];
      DispatchMisses(keys, init, i, j);
    }
  }

  /** The responses the reader reads before the first failed read. */
  function FramesUntilFailure(inbox: seq<Inbound>): (fs: seq<Response>)
    ensures |fs| <= |inbox|
    ensures forall k :: 0 <= k < |fs| ==> inbox[k] == Frame(fs[k])
    ensures |fs| < |inbox| ==> inbox[|fs|].ReadFailure?
  {
    if inbox == [] || inbox[0].ReadFailure? then []
    else [inbox[0].resp] + FramesUntilFailure(inbox[1..])
  }

  /** The responses the reader dispatches on a connection in the given state. */
  function ReaderFrames(inbox: seq<Inbound>, closed: bool): seq<Response> {
    if closed then [] else FramesUntilFailure(inbox)
  }

  /** How many inbound messages the reader consumes: its frames and the failure that stops it. */
  function ReaderConsumed(inbox: seq<Inbound>, closed: bool): (n: nat)
    ensures n <= |inbox|
  {
    if closed then 0
    else if |FramesUntilFailure(inbox)| < |inbox| then |FramesUntilFailure(inbox)| + 1
    else |inbox|
  }

  /** The pending entries left after dispatching `d`. */
  function Unserved<W>(pending: map<int, W>, d: map<int, Response>): (m: map<int, W>)
    ensures m.Keys == pending.Keys - d.Keys
    ensures forall i :: i in m ==> m[i] == pending[i]
  {
    map i | i in pending && i !in d :: pending[i]
  }

  /* ---------------------------------------------------------------- the connection */

  /** wsConn: the connection, the id counter, the pending registry and the done flag. */
  class WsConn {
    const conn: Conn
    var msgID: int
    var pending: map<int, Waiter>
    var done: bool

    /**
     * Every pending id was handed out, no pending waiter has a response yet (the reader
     * removes an entry as it fills it), waiters are not shared between ids, and a closed
     * session has a closed connection.
     */
    predicate Valid()
      reads this, conn, Waiters(pending)
    {
      && msgID >= 0
      && (forall i :: i in pending ==> 1 <= i <= msgID)
      && (forall i :: i in pending ==> pending[i].slot.None?)
      && (forall i, j :: i in pending && j in pending && pending[i] == pending[j] ==> i == j)
      && (done ==> conn.closed)
    }

    constructor(conn: Conn)
      ensures this.conn == conn
      ensures msgID == 0 && pending == map[] && !done
      ensures Valid()
    {
      this.conn := conn;
      msgID := 0;
      pending := map[];
      done := false;
    }

    /** authenticate: read auth_required, write the token, read the verdict. */
    method Authenticate(token: string) returns (err: Option<Error>)
      modifies conn
      ensures var h := Handshake(old(conn.inbox), old(conn.closed), conn.writeFailure, token);
        && err == h.err
        && conn.inbox == old(conn.inbox)[h.consumed..]
        && conn.sent == old(conn.sent) + (if h.wroteAuth then [AuthMessage(token)] else [])
      ensures conn.closed == old(conn.closed)
    {
      var authReq := conn.ReadJSON();
      if authReq.Failure? {
        return Some(Wrapped("read auth_required: ", authReq.error, ""));
      }
      if authReq.value.kind != "auth_required" {
        return Some(Plain("expected auth_required, got " + authReq.value.kind));
      }
      var werr := conn.WriteJSON(AuthMessage(token));
      if werr.Some? {
        return Some(Wrapped("write auth: ", werr.value, ""));
      }
      var authResp := conn.ReadJSON();
      if authResp.Failure? {
        return Some(Wrapped("read auth response: ", authResp.error, ""));
      }
      return AuthResponseError(authResp.value);
    }

    /**
     * The first half of sendCommand: take the next id, register a fresh waiter under
     * it, encode and write the command with its id; on an error the entry is removed
     * again.
     */
    method Send(cmd: Encoded) returns (id: int, w: Waiter, err: Option<Error>)
      requires Valid()
      modifies this, conn
      ensures Valid() && fresh(w)
      ensures id == old(msgID) + 1 && msgID == id && id !in old(pending)
      ensures err == SendError(cmd, WriteOutcome(old(conn.closed), conn.writeFailure))
      ensures err.None? ==> pending == old(pending)[id := w] && w.slot.None?
      ensures err.Some? ==> pending == old(pending)
      ensures conn.sent == if cmd.Encoded? && WriteOutcome(old(conn.closed), conn.writeFailure).None?
                           then old(conn.sent) + [cmd.obj["id" := Num(id)]] else old(conn.sent)
      ensures done == old(done) && conn.inbox == old(conn.inbox) && conn.closed == old(conn.closed)
    {
      id := msgID + 1;
      msgID := id;
      w := new Waiter();
      pending := pending[id := w];
      match cmd
      case MarshalFailed(text) =>
        pending := pending - {id};
        err := Some(Wrapped("marshal command: ", Library(text), ""));
      case UnmarshalFailed(text) =>
        pending := pending - {id};
        err := Some(Wrapped("unmarshal command: ", Library(text), ""));
      case Encoded(obj) =>
        var werr := conn.WriteJSON(obj["id" := Num(id)]);
        if werr.Some? {
          pending := pending - {id};
          err := Some(Wrapped("write command: ", werr.value, ""));
        } else {
          err := None;
        }
    }

    /**
     * The second half of sendCommand: the select over cancellation, closing and the
     * response, then the deferred removal of the entry. None means the call still waits.
     */
    method Await(id: int, w: Waiter, ctxErr: Option<Error>, pick: Arm) returns (r: Option<Result<Response, Error>>)
      requires Valid()
      requires id in pending ==> pending[id] == w
      requires forall i :: i in pending && pending[i] == w ==> i == id
      modifies this`pending, w
      ensures Valid()
      ensures r == SelectOutcome(ctxErr, done, old(w.slot), pick)
      ensures r.None? ==> pending == old(pending) && w.slot == old(w.slot)
      ensures r.Some? ==> pending == old(pending) - {id}
      ensures r.Some? ==> w.slot == if Chosen(ctxErr, done, old(w.slot), pick) == Some(Responded) then None else old(w.slot)
    {
      var arm := Chosen(ctxErr, done, w.slot, pick);
      r := SelectOutcome(ctxErr, done, w.slot, pick);
      if arm.Some? {
        if arm.value == Responded {
          w.slot := None;
        }
        pending := pending - {id};
      }
    }

    /** One dispatch of the reader: a response for a pending id fills its waiter and removes it. */
    method Deliver(resp: Response)
      requires Valid()
      modifies this`pending, Waiters(pending)
      ensures Valid()
      ensures pending == if resp.id != 0 && resp.id in old(pending) then old(pending) - {resp.id} else old(pending)
      ensures forall i :: i in old(pending) ==> old(pending)[i].slot == if i == resp.id then Some(resp) else None
    {
      if resp.id != 0 {
        if resp.id in pending {
          var ch := pending[resp.id];
          ch.slot := Some(resp);
          pending := pending - {resp.id};
        }
      }
    }

    /** close: the done flag and the connection are closed, once. */
    method Close()
      requires Valid()
      modifies this, conn
      ensures Valid()
      ensures done && conn.closed
      ensures old(done) ==> conn.closed == old(conn.closed)
      ensures pending == old(pending) && msgID == old(msgID)
      ensures conn.inbox == old(conn.inbox) && conn.sent == old(conn.sent)
    {
      if !done {
        done := true;
        conn.Close();
      }
    }

    /**
     * One iteration of the reader, seen from the registry `waiters` it started with on
     * the messages `start`: after `k` frames the responses in `served` were handed out.
     * A read either yields frame `k`, which is dispatched, or fails, which closes the
     * session.
     */
    method ReaderStep(ghost start: seq<Inbound>, ghost closed0: bool, ghost waiters: map<int, Waiter>, ghost k: nat)
      returns (stopped: bool)
      requires Reading(start, closed0, waiters, k, false)
      modifies this, conn, Waiters(pending)
      ensures Reading(start, closed0, waiters, if stopped then k else k + 1, stopped)
      ensures msgID == old(msgID) && conn.sent == old(conn.sent)
    {
      var r := conn.ReadJSON();
      if r.Failure? {
        ReadFailsAtEnd(start, closed0, k);
        Stop(start, closed0, waiters, k);
        return true;
      }
      ReadSucceedsInside(start, closed0, k);
      DeliverAmong(r.value, waiters, ReaderFrames(start, closed0), k);
      return false;
    }

    /** The end of the reader: after the failed read that follows the last frame, the session is closed. */
    method Stop(ghost start: seq<Inbound>, ghost closed0: bool, ghost waiters: map<int, Waiter>, ghost k: nat)
      requires Valid() && Distinct(waiters) && k == |ReaderFrames(start, closed0)|
      requires conn.inbox == start[ReaderConsumed(start, closed0)..]
      requires pending == Unserved(waiters, Dispatch(waiters.Keys, ReaderFrames(start, closed0)[..k]))
      requires Filled(waiters, Dispatch(waiters.Keys, ReaderFrames(start, closed0)[..k]))
      modifies this, conn
      ensures Reading(start, closed0, waiters, k, true)
      ensures msgID == old(msgID) && conn.sent == old(conn.sent)
    {
      Close();
    }

    /**
     * Deliver, seen from the registry `waiters` the reader started with: after the
     * frames before `k` were dispatched, frame `k` is.
     */
    method DeliverAmong(resp: Response, ghost waiters: map<int, Waiter>, ghost frames: seq<Response>, ghost k: nat)
      requires Valid() && Distinct(waiters)
      requires k < |frames| && resp == frames[k]
      requires pending == Unserved(waiters, Dispatch(waiters.Keys, frames[..k]))
      requires Filled(waiters, Dispatch(waiters.Keys, frames[..k]))
      modifies this`pending, Waiters(pending)
      ensures Valid()
      ensures pending == Unserved(waiters, Dispatch(waiters.Keys, frames[..k + 1]))
      ensures Filled(waiters, Dispatch(waiters.Keys, frames[..k + 1]))
    {
      DispatchStep(waiters.Keys, frames, k);
      DeliverServed(resp, waiters, Dispatch(waiters.Keys, frames[..k]));
    }

    /** Deliver, with `served` the responses handed out so far: one more frame extends it as Dispatch does. */
    method DeliverServed(resp: Response, ghost waiters: map<int, Waiter>, ghost served: map<int, Response>)
      requires Valid() && Distinct(waiters)
      requires pending == Unserved(waiters, served) && Filled(waiters, served)
      modifies this`pending, Waiters(pending)
      ensures Valid()
      ensures var next := if resp.id != 0 && resp.id in waiters && resp.id !in served then served[resp.id := resp] else served;
        pending == Unserved(waiters, next) && Filled(waiters, next)
    {
      UnservedStep(waiters, served, resp);
      ghost var before := pending;
      label BeforeDeliver:
      Deliver(resp);
      ghost var next := if resp.id != 0 && resp.id in waiters && resp.id !in served then served[resp.id := resp] else served;
      forall i | i in waiters
        ensures waiters[i].slot == if i in next then Some(next[i]) else None
      {
        if i !in before {
          OthersUntouched(waiters, served, i);
          assert waiters[i].slot == old@BeforeDeliver(waiters[i].slot);
        }
      }
    }

    /**
     * Where the reader stands after `k` frames of `start`, dispatched to the registry
     * `waiters` it started with: the entries not yet served are pending, every waiter
     * holds what was served to it, and a stopped reader has consumed its failed read
     * and closed the session.
     */
    ghost predicate Reading(start: seq<Inbound>, closed0: bool, waiters: map<int, Waiter>, k: nat, stopped: bool)
      reads this, conn, Waiters(pending), Waiters(waiters)
    {
      var frames := ReaderFrames(start, closed0);
      && Valid() && Distinct(waiters)
      && k <= |frames|
      && (!stopped ==> conn.closed == closed0 && conn.inbox == start[k..])
      && (stopped ==> k == |frames| && done && conn.closed && conn.inbox == start[ReaderConsumed(start, closed0)..])
      && pending == Unserved(waiters, Dispatch(waiters.Keys, frames[..k]))
      && Filled(waiters, Dispatch(waiters.Keys, frames[..k]))
    }

    /**
     * reader: dispatch every message until a read fails, then close. Each pending id
     * receives the first response that carries it; the others stay pending and empty.
     */
    method Reader()
      requires Valid()
      modifies this, conn, Waiters(pending)
      ensures Valid() && done && conn.closed
      ensures var d := Dispatch(old(pending).Keys, ReaderFrames(old(conn.inbox), old(conn.closed)));
        && pending == Unserved(old(pending), d)
        && forall i :: i in old(pending) ==> old(pending)[i].slot == if i in d then Some(d[i]) else None
      ensures conn.inbox == old(conn.inbox)[ReaderConsumed(old(conn.inbox), old(conn.closed))..]
      ensures msgID == old(msgID) && conn.sent == old(conn.sent)
    {
      ghost var start, closed0, waiters := conn.inbox, conn.closed, pending;
      ghost var frames := ReaderFrames(start, closed0);
      ghost var k := 0;
      var stopped := false;
      assert frames[..0] == [];
      while !stopped
        invariant Reading(start, closed0, waiters, k, stopped)
        invariant msgID == old(msgID) && conn.sent == old(conn.sent)
        decreases |frames| - k + (if stopped then 0 else 1)
      {
        UnservedWaiters(waiters, Dispatch(waiters.Keys, frames[..k]));
        stopped := ReaderStep(start, closed0, waiters, k);
        if !stopped {
          k := k + 1;
        }
      }
      assert frames[..k] == frames;
    }
  }

  /** The waiters of a registry. */
  function Waiters(pending: map<int, Waiter>): set<Waiter> {
    set i | i in pending :: pending[i]
  }

  /** No waiter is registered under two ids. */
  ghost predicate Distinct(waiters: map<int, Waiter>) {
    forall i, j :: i in waiters && j in waiters && waiters[i] == waiters[j] ==> i == j
  }

  /** Every waiter holds the response served to its id, and nothing when none was. */
  ghost predicate Filled(waiters: map<int, Waiter>, served: map<int, Response>)
    reads Waiters(waiters)
  {
    forall i :: i in waiters ==> waiters[i].slot == if i in served then Some(served[i]) else None
  }

  /** With distinct waiters, a served id's waiter is none of the pending ones. */
  lemma OthersUntouched(waiters: map<int, Waiter>, served: map<int, Response>, i: int)
    requires Distinct(waiters)
    requires i in waiters && i !in Unserved(waiters, served)
    ensures waiters[i] !in Waiters(Unserved(waiters, served))
  {
  }

  /** The entries left pending are among those the reader started with. */
  lemma UnservedWaiters(waiters: map<int, Waiter>, served: map<int, Response>)
    ensures Waiters(Unserved(waiters, served)) <= Waiters(waiters)
  {
  }

  /** Dispatching one more frame. */
  lemma DispatchStep(keys: set<int>, frames: seq<Response>, k: nat)
    requires k < |frames|
    ensures var d := Dispatch(keys, frames[..k]); var f := frames[k];
      Dispatch(keys, frames[..k + 1]) == if f.id != 0 && f.id in keys && f.id !in d then d[f.id := f] else d
  {
    assert frames[..k + 1][..k] == frames[..k];
  }

  lemma UnservedStep(waiters: map<int, Waiter>, served: map<int, Response>, f: Response)
    ensures f.id in Unserved(waiters, served) <==> f.id in waiters && f.id !in served
    ensures f.id in waiters && f.id !in served ==>
      Unserved(waiters, served[f.id := f]) == Unserved(waiters, served) - {f.id}
  {
  }

  /** While the reader is inside its frames, a successful read returns the next frame. */
  lemma ReadSucceedsInside(start: seq<Inbound>, closed: bool, k: nat)
    requires k <= |ReaderFrames(start, closed)|
    requires NextRead(start[k..], closed).Success?
    ensures k < |ReaderFrames(start, closed)|
    ensures NextRead(start[k..], closed).value == ReaderFrames(start, closed)[k]
    ensures ReadCount(start[k..], closed) == 1 && start[k..][1..] == start[k + 1..]
  {
  }

  /** A failed read happens exactly after the last frame. */
  lemma ReadFailsAtEnd(start: seq<Inbound>, closed: bool, k: nat)
    requires k <= |ReaderFrames(start, closed)|
    requires NextRead(start[k..], closed).Failure?
    ensures k == |ReaderFrames(start, closed)|
    ensures start[k..][ReadCount(start[k..], closed)..] == start[ReaderConsumed(start, closed)..]
  {
  }

  /** The reader hands each of two pending ids its own response, whatever the arrival order. */
  lemma OutOfOrderDispatch(first: Response, second: Response)
    requires first.id == 1 && second.id == 2
    ensures ReaderFrames([Frame(second), Frame(first)], false) == [second, first]
    ensures Dispatch({1, 2}, [second, first]) == map[1 := first, 2 := second]
  {
    var inbox := [Frame(second), Frame(first)];
    assert inbox[1..] == [Frame(first)] && inbox[1..][1..] == [];
    DispatchFirst({1, 2}, [second, first], 0);
    DispatchFirst({1, 2}, [second, first], 1);
  }

  /** Two commands sent on a fresh session: ids 1 and 2, two distinct waiters registered. */
  method SendTwo(cmd1: map<string, Value>, cmd2: map<string, Value>, inbox: seq<Inbound>)
    returns (ws: WsConn, w1: Waiter, w2: Waiter)
    ensures fresh(ws) && fresh(ws.conn) && ws.Valid() && !ws.done
    ensures ws.pending == map[1 := w1, 2 := w2] && fresh(w1) && fresh(w2) && w1 != w2
    ensures ws.conn.inbox == inbox && !ws.conn.closed
    ensures ws.conn.sent == [cmd1["id" := Num(1)], cmd2["id" := Num(2)]]
  {
    var conn := new Conn("ws://localhost:8123/api/websocket", inbox, None);
    ws := new WsConn(conn);
    var id1, err1, id2, err2;
    id1, w1, err1 := ws.Send(Encoded(cmd1));
    id2, w2, err2 := ws.Send(Encoded(cmd2));
  }

  /** A reader whose frames serve both pending ids fills both waiters and empties the registry. */
  method ServeBoth(ws: WsConn, w1: Waiter, w2: Waiter, first: Response, second: Response)
    requires ws.Valid() && ws.pending == map[1 := w1, 2 := w2] && !ws.conn.closed
    requires Dispatch({1, 2}, ReaderFrames(ws.conn.inbox, false)) == map[1 := first, 2 := second]
    modifies ws, ws.conn, w1, w2
    ensures ws.Valid() && ws.done && ws.pending == map[]
    ensures w1.slot == Some(first) && w2.slot == Some(second)
    ensures ws.conn.sent == old(ws.conn.sent)
  {
    assert forall i :: i in ws.pending ==> ws.pending[i] in {w1, w2};
    ghost var p := ws.pending;
    assert p.Keys == {1, 2};
    ghost var d := Dispatch(p.Keys, ReaderFrames(ws.conn.inbox, false));
    assert 1 in d && d[1] == first && 2 in d && d[2] == second;
    ws.Reader();
    assert ws.pending.Keys == {};
    assert p[1] == w1 && p[1].slot == Some(d[1]);
    assert p[2] == w2 && p[2].slot == Some(d[2]);
  }

  /**
   * Two calls whose responses arrive in reverse order: each caller still receives the
   * response carrying its own id, and the registry ends empty. The scripted inbox runs
   * dry after the two frames, which the reader treats as a dropped connection (where a
   * live ReadJSON would block), so by the time each caller selects, the done channel is
   * closed as well: the select may take either arm, and `pick1`/`pick2` stand for the
   * scheduler's choice. Taking the response gives the caller's own classified response;
   * any other pick gives "websocket connection closed".
   */
  method TwoCallsOutOfOrder(cmd1: map<string, Value>, cmd2: map<string, Value>, first: Response, second: Response,
                            pick1: Arm, pick2: Arm)
    returns (r1: Option<Result<Response, Error>>, r2: Option<Result<Response, Error>>, sent: seq<map<string, Value>>)
    requires first.id == 1 && second.id == 2
    ensures pick1 == Responded ==> r1 == Some(Classify(first))
    ensures pick2 == Responded ==> r2 == Some(Classify(second))
    ensures pick1 != Responded ==> r1 == Some(Failure(Plain("websocket connection closed")))
    ensures pick2 != Responded ==> r2 == Some(Failure(Plain("websocket connection closed")))
    ensures sent == [cmd1["id" := Num(1)], cmd2["id" := Num(2)]]
  {
    var ws, w1, w2 := SendTwo(cmd1, cmd2, [Frame(second), Frame(first)]);
    OutOfOrderDispatch(first, second);
    ServeBoth(ws, w1, w2, first, second);
    r1 := ws.Await(1, w1, None, pick1);
    r2 := ws.Await(2, w2, None, pick2);
    sent := ws.conn.sent;
  }
}
