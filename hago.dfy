/**
 * The client itself (client.go and the session half of websocket.go): construction from
 * functional options, and the lifecycle of the optional WebSocket session it holds.
 *
 * client.go:17-21 declares only the base URL, the token and the HTTP client, while
 * websocket.go:64-68, 108 and 264-270 use a `ws` session field guarded by a mutex; the
 * model gives the client that optional session and leaves the mutex out.
 */
module Hago {

  import opened Wrappers
  import opened Strings
  import opened Errors
  import opened Rest
  import opened WebSocket

  /** The options New accepts that configure something the model keeps. */
  datatype ClientOption = WithBaseURL(url: string) | WithToken(token: string)

  /** The base URL after applying `opts` in order: the last WithBaseURL wins, normalised. */
  function ConfiguredBaseURL(opts: seq<ClientOption>): string {
    if opts == [] then ""
    else match opts[|opts| - 1]
      case WithBaseURL(u) => NormalizeBaseURL(u)
      case WithToken(_) => ConfiguredBaseURL(opts[..|opts| - 1])
  }

  /** The token after applying `opts` in order: the last WithToken wins. */
  function ConfiguredToken(opts: seq<ClientOption>): string {
    if opts == [] then ""
    else match opts[|opts| - 1]
      case WithToken(t) => t
      case WithBaseURL(_) => ConfiguredToken(opts[..|opts| - 1])
  }

  /** Without a WithBaseURL option the base URL stays empty, so New fails with ErrNoBaseURL. */
  lemma {:induction false} NoBaseURLOption(opts: seq<ClientOption>)
    requires forall k :: 0 <= k < |opts| ==> opts[k].WithToken?
    ensures ConfiguredBaseURL(opts) == ""
    ensures Validate(ConfiguredBaseURL(opts), ConfiguredToken(opts)) == Some(NoBaseURL)
  {
    if opts != [] {
      NoBaseURLOption(opts[..|opts| - 1]);
    }
  }

  /** Options of the other kind do not disturb a setting: the token survives any later base URLs. */
  lemma {:induction false} TokenSurvivesBaseURLs(opts: seq<ClientOption>, token: string, later: seq<ClientOption>)
    requires forall k :: 0 <= k < |later| ==> later[k].WithBaseURL?
    ensures ConfiguredToken(opts + [WithToken(token)] + later) == token
    decreases |later|
  {
    if later != [] {
      var init := later[..|later| - 1];
      assert (opts + [WithToken(token)] + later)[..|opts + [WithToken(token)] + later| - 1]
        == opts + [WithToken(token)] + init;
      TokenSurvivesBaseURLs(opts, token, init);
    }
  }

  /** The tests' configuration: one trailing slash of the base URL is dropped. */
  lemma TrailingSlashDropped(token: string)
    requires token != ""
    ensures ConfiguredBaseURL([WithBaseURL("http://localhost:8123/"), WithToken(token)]) == "http://localhost:8123"
    ensures Validate(ConfiguredBaseURL([WithBaseURL("http://localhost:8123/"), WithToken(token)]), token).None?
  {
    var opts := [WithBaseURL("http://localhost:8123/"), WithToken(token)];
    assert opts[..1] == [WithBaseURL("http://localhost:8123/")];
    assert opts[..1][..0] == [];
    NormalizeRemovesOneSlash("http://localhost:8123");
    assert "http://localhost:8123" + "/" == "http://localhost:8123/";
  }

  /**
   * What connectWebSocket returns once it decides to dial: the URL error, the dial error
   * or the handshake error, each wrapped with its step, or None when the session is up.
   */
  function ConnectError(baseURL: string, token: string, parse: string -> Result<URL, Error>, peer: Peer): (r: Option<Error>)
    ensures BuildWebSocketURL(baseURL, parse).Failure? ==>
      r == Some(Wrapped("build websocket URL: ", BuildWebSocketURL(baseURL, parse).error, ""))
    ensures BuildWebSocketURL(baseURL, parse).Success? && peer.Refused? ==>
      r == Some(Wrapped("websocket dial: ", Library(peer.reason), ""))
    ensures r.None? <==>
      && BuildWebSocketURL(baseURL, parse).Success? && peer.Accepted?
      && Handshake(peer.inbox, false, peer.writeFailure, token).err.None?
    ensures r.Some? && BuildWebSocketURL(baseURL, parse).Success? && peer.Accepted? ==>
      r == Some(Wrapped("websocket auth: ", Handshake(peer.inbox, false, peer.writeFailure, token).err.value, ""))
  {
    match BuildWebSocketURL(baseURL, parse)
    case Failure(e) => Some(Wrapped("build websocket URL: ", e, ""))
    case Success(_) =>
      match peer
      case Refused(reason) => Some(Wrapped("websocket dial: ", Library(reason), ""))
      case Accepted(inbox, writeFailure) =>
        match Handshake(inbox, false, writeFailure, token).err
        case Some(e) => Some(Wrapped("websocket auth: ", e, ""))
        case None => None
  }

  /** A server that asks for the token and accepts it gives a session, whatever else it sends. */
  lemma ConnectAccepted(baseURL: string, token: string, parse: string -> Result<URL, Error>,
                        req: Response, resp: Response, rest: seq<Inbound>)
    requires BuildWebSocketURL(baseURL, parse).Success?
    requires req.kind == "auth_required" && resp.kind == "auth_ok"
    ensures ConnectError(baseURL, token, parse, Accepted([Frame(req), Frame(resp)] + rest, None)).None?
  {
    HandshakeExchange(req, resp, rest, token);
  }

  /** A rejected token is reported through the auth step, with the server's default text. */
  lemma ConnectRejected(baseURL: string, token: string, parse: string -> Result<URL, Error>,
                        req: Response, resp: Response, rest: seq<Inbound>)
    requires BuildWebSocketURL(baseURL, parse).Success?
    requires req.kind == "auth_required" && resp.kind == "auth_invalid" && resp.message == ""
    ensures var r := ConnectError(baseURL, token, parse, Accepted([Frame(req), Frame(resp)] + rest, None));
      r.Some? && Text(r.value) == "websocket auth: " + "auth failed: " + "invalid authentication"
  {
    HandshakeExchange(req, resp, rest, token);
    var m := "auth failed: invalid authentication";
    assert m == "auth failed: " + "invalid authentication";
    assert Text(Wrapped("websocket auth: ", Plain(m), "")) == "websocket auth: " + m;
  }

  /** The Home Assistant client: its configuration and its optional WebSocket session. */
  class Client {
    var baseURL: string
    var token: string
    var ws: WsConn?

    /** The zero Client that New starts from. */
    constructor()
      ensures baseURL == "" && token == "" && ws == null
    {
      baseURL := "";
      token := "";
      ws := null;
    }

    /** Running one option's closure on the client. */
    method Apply(opt: ClientOption)
      modifies this
      ensures baseURL == if opt.WithBaseURL? then NormalizeBaseURL(opt.url) else old(baseURL)
      ensures token == if opt.WithToken? then opt.token else old(token)
      ensures ws == old(ws)
    {
      match opt
      case WithBaseURL(u) => baseURL := TrimSuffix(u, "/");
      case WithToken(t) => token := t;
    }

    /** The session is open: present and not yet closed. */
    predicate Connected()
      reads this, ws
    {
      ws != null && !ws.done
    }

    /**
     * connectWebSocket. `parse` stands for url.Parse and `peer` for the server the dialer
     * reaches. An open session is kept; otherwise a new one is dialed and authenticated,
     * and kept only when the handshake succeeds. The reader is started separately, by
     * calling `Reader` on the session. `dialed` is the connection the dialer opened, if
     * any: a failed handshake closes it.
     */
    method ConnectWebSocket(parse: string -> Result<URL, Error>, peer: Peer) returns (err: Option<Error>, ghost dialed: Conn?)
      modifies this
      ensures baseURL == old(baseURL) && token == old(token)
      ensures old(Connected()) ==> err.None? && ws == old(ws)
      ensures !old(Connected()) ==> err == ConnectError(baseURL, token, parse, peer)
      ensures !old(Connected()) && err.Some? ==> ws == old(ws)
      ensures !old(Connected()) && err.None? ==>
        && ws != null && fresh(ws) && fresh(ws.conn) && ws.Valid()
        && ws.msgID == 0 && ws.pending == map[] && !ws.done
        && ws.conn.url == BuildWebSocketURL(baseURL, parse).value
        && ws.conn.sent == [AuthMessage(token)]
        && ws.conn.inbox == peer.inbox[Handshake(peer.inbox, false, peer.writeFailure, token).consumed..]
      ensures dialed != null <==> !old(Connected()) && BuildWebSocketURL(baseURL, parse).Success? && peer.Accepted?
      ensures dialed != null ==> fresh(dialed)
      ensures dialed != null && err.Some? ==> dialed.closed
      ensures dialed != null && err.None? ==> ws.conn == dialed && !dialed.closed
    {
      if ws != null && !ws.done {
        return None, null;
      }
      var url := BuildWebSocketURL(baseURL, parse);
      if url.Failure? {
        return Some(Wrapped("build websocket URL: ", url.error, "")), null;
      }
      match peer
      case Refused(reason) =>
        return Some(Wrapped("websocket dial: ", Library(reason), "")), null;
      case Accepted(inbox, writeFailure) =>
        var conn := new Conn(url.value, inbox, writeFailure);
        var session := new WsConn(conn);
        var authErr := session.Authenticate(token);
        if authErr.Some? {
          conn.Close();
          return Some(Wrapped("websocket auth: ", authErr.value, "")), conn;
        }
        ws := session;
        return None, conn;
    }

    /** CloseWebSocket: an open or closed session is closed and forgotten. */
    method CloseWebSocket()
      requires ws != null ==> ws.Valid()
      modifies this, if ws != null then {ws, ws.conn} else {}
      ensures ws == null
      ensures baseURL == old(baseURL) && token == old(token)
      ensures old(ws) != null ==> old(ws).done && old(ws).conn.closed && old(ws).Valid()
    {
      if ws != null {
        ws.Close();
        ws := null;
      }
    }
  }

  /**
   * New: the options run in order on a zero client, then the configuration is checked.
   * WithHTTPClient and WithTimeout are not modelled, and no modelled option fails.
   */
  method New(opts: seq<ClientOption>) returns (r: Result<Client, Error>)
    ensures r.Failure? <==> Validate(ConfiguredBaseURL(opts), ConfiguredToken(opts)).Some?
    ensures r.Failure? ==> r.error == Validate(ConfiguredBaseURL(opts), ConfiguredToken(opts)).value
    ensures r.Success? ==> fresh(r.value) && r.value.ws == null
    ensures r.Success? ==> r.value.baseURL == ConfiguredBaseURL(opts) && r.value.token == ConfiguredToken(opts)
  {
    var c := new Client();
    for i := 0 to |opts|
      invariant c.baseURL == ConfiguredBaseURL(opts[..i])
      invariant c.token == ConfiguredToken(opts[..i])
      invariant c.ws == null
    {
      assert opts[..i + 1][..i] == opts[..i];
      c.Apply(opts[i]);
    }
    assert opts[..|opts|] == opts;
    var err := Validate(c.baseURL, c.token);
    if err.Some? {
      return Failure(err.value);
    }
    return Success(c);
  }
}
