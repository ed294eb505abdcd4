# hago — a verified model of the Home Assistant client core

This project models the core of `hago`, a Go client for the Home Assistant REST and
WebSocket APIs, together with the argument decoding of its `hago` command-line tool.
Every operation is written as a Dafny function, method or class. Its contract says what
the Go code promises, and the cross-operation properties are lemmas.

Modules, one per file:

- `Wrappers` (`wrappers.dfy`): the `Option` and `Result` datatypes.
- `Strings` (`strings.dfy`): the pieces of Go's `strings` and `strconv` the client uses.
- `Json` (`json.dfy`): JSON values, and Go slices with their nil / empty distinction.
- `Errors` (`errors.dfy`):
  - the sentinel errors, `APIError`, `RequestError`, `WebSocketError` and `%w` wrapping;
  - their `Error()` text and `Unwrap`.
- `Scan` (`scan.dfy`): the `%d` verb of `fmt.Sscanf`, which both the day parser and the
  calendar command depend on.
- `History` (`history.dfy`): `parseDuration` of the `history` command, with int64
  wrap-around of the nanosecond count.
- `Cli` (`cli.dfy`):
  - `executeCommand`'s argument decoding into a `Command` datatype;
  - `setupLogger`'s level names;
  - `getEnv`.
- `Rest` (`rest.dfy`):
  - `validate` and `WithBaseURL`'s normalisation;
  - `checkResponse`;
  - `buildQueryString`, `boolToString`, `formatTimePtr` and the parameters of `History`.
- `Types` (`types.go` → `types.dfy`):
  - `ServiceCallRequest.MarshalJSON`, as a map union and as the loop that builds it;
  - the guard shared by the turn_on / turn_off / toggle wrappers.
- `Fallback` (`fallback.dfy`): the states fallback shared by `AutomationList` and
  `ScriptList`, and their double-failure error.
- `Automation` and `Script` (`automation.dfy`, `script.dfy`): the input guards, service
  data, save payloads and list operations.
- `WebSocket` (`websocket.dfy`):
  - the URL derivation;
  - the authentication handshake;
  - `wsConn` as a class with its id counter, pending registry and done flag;
  - the reader loop;
  - the classification of a response;
  - the `select` of `sendCommand`.
- `Hago` (`hago.dfy`):
  - the `Client` class with its options;
  - `New`;
  - the session lifecycle of `connectWebSocket` and `CloseWebSocket`.

Foreign calls are abstract parameters of the functions that use them. They are:

- `url.Parse`;
- `json.Unmarshal` of an error body or a result;
- `time.ParseDuration`;
- `time.Format`;
- `url.Values.Encode`.

The network connection is a `Conn` object. Its incoming messages are scripted in advance
as a sequence, and the messages written to it are logged.

Goroutines and channels become separate steps that a caller may interleave in any order.
Those steps are `Send`, `Deliver`, `Await`, `Close` and `Reader`. A `Waiter` object is the
one-slot channel a caller waits on. `SelectOutcome` is the `select` of `sendCommand`, and
its `pick` parameter stands for the runtime's choice among ready arms.

`client.go:17-21` declares no WebSocket session field. `websocket.go` nevertheless reads
and writes `c.ws`, so the model's `Client` class carries an optional `ws: WsConn?`.

## Model

| member | source | states |
|---|---|---|
| Errors.APIErrorText | errors.go:38-46 | The text always starts "API error <code> (<status>)". A non-empty message follows it, else a non-empty body, else nothing. |
| Errors.APIMessageHidesBody | errors.go:39-41 | With a non-empty message, the body never changes the text. |
| Errors.WebSocketErrorText | websocket.go:58-60 | The text starts with "websocket error [" and ends with "]: " and the message. |
| Errors.Unwrap | errors.go:59-62 | Only a RequestError or a %w-wrapped error has an underlying error, and it is strictly smaller. |
| Errors.RequestErrorUnwraps | errors.go:54-62 | The text is "<op>: <err>". Unwrap returns exactly the carried error, so errors.Is sees through it. |
| Errors.IsSurvivesWrapping | websocket.go:78-103 | Any chain of %w wrappings keeps the wrapped error reachable by errors.Is. |
| Json.SliceRoundTrip | automation.go:29-31 | Decoding an encoded slice gives it back; nil encodes to null and an allocated slice to an array. |
| Json.StringAttr | automation.go:150 | A value is returned exactly when the attribute is present and is a JSON string, and it is that string. |
| Scan.ScanInt | cmd/hago/main.go:250 | A scanned value fits in int64 and is read from a run of digits that ends at a non-digit or at the end of the input. |
| Scan.ScanIntThen | cmd/hago/cmd/history.go:62 | "%dd" succeeds exactly when "%d" succeeds and the very next character is 'd'; the value is that of "%d". |
| Scan.ScanIntOfDecimal | cmd/hago/cmd/history.go:62 | Reading "%d" from the decimal text of any int64, followed by a non-digit, gives that number back. |
| History.WrapInt64 | cmd/hago/cmd/history.go:65 | The result is in int64 range and congruent to the exact product modulo 2^64, as Go's Duration multiplication. |
| History.ParseDuration | cmd/hago/cmd/history.go:58-68 | A string longer than one character ending in 'd' goes to the day branch. That branch succeeds exactly when "%dd" scans, and gives the wrapped N × 24 h. Every other string goes to the standard parser unchanged. |
| History.DaysRoundTrip | cmd/hago/cmd/history.go:60-65 | "<N>d" parses to N days (wrapped) for every int64 N. |
| History.DaysWithoutOverflow | cmd/hago/cmd/history.go:65 | For -106751 ≤ N ≤ 106751, "<N>d" is exactly N × 24 hours. |
| History.NoLeadingIntegerFails | cmd/hago/cmd/history.go:61-64 | In the day branch, a string with no leading integer is an error. |
| History.StandardBranch | cmd/hago/cmd/history.go:52-67 | "d" and the flag default "24h" go to the standard parser unchanged. |
| Cli.ExecuteCommand | cmd/hago/main.go:180-256 | An unknown name fails with "unknown command: <cmd>". A known name succeeds exactly when it has its minimum number of arguments, and otherwise fails with its usage line. A decoded command has the name it was asked for. state and template carry their one argument. call, fire, history and logbook take their optional arguments when present and otherwise get "" or "24h". calendar takes the integer `%d` scans from its second argument, and keeps 7 days when there is none or the scan fails. |
| Cli.DecodeArgsRoundTrip | cmd/hago/main.go:180-256 | For every command, decoding its name and its spelled-out arguments gives that command back. |
| Cli.CalendarDaysDefault | cmd/hago/main.go:244-252 | A day count that does not scan leaves the default of 7 days. |
| Cli.SetupLogger | cmd/hago/main.go:424-450 | It succeeds exactly for debug / info / warn / error in any ASCII letter case. The level is the slog level of that name, and JSON output is chosen exactly for "json". Anything else is "invalid log level: <level>". |
| Cli.LevelNamesIgnoreCase | cmd/hago/main.go:426 | Any spelling of a level name gives the same logger as its lower-case spelling. |
| Cli.GetEnv | cmd/hago/main.go:452-457 | A set, non-empty variable wins; otherwise the default is returned. |
| Rest.Validate | client.go:83-91 | An empty base URL gives ErrNoBaseURL, checked before the token. An empty token gives ErrNoToken. It returns nil exactly when both are set. |
| Rest.NormalizeBaseURL | client.go:28-34 | A trailing "/" is removed once, and a URL without one is kept. |
| Rest.NormalizeRemovesOneSlash | client.go:31 | Exactly one slash goes: "h/" becomes "h" and "h//" becomes "h/". |
| Rest.CheckResponse | client.go:188-223 | The result is nil exactly for 2xx statuses. 401, 404 and 405 are their sentinels. 400 is an APIError when the body has a message, else ErrBadRequest. Every other status is an APIError with code, status, message and raw body. |
| Rest.CheckResponseText | client.go:194-221 | Every APIError the default branch builds reads "API error <code> (<status>)". Without a message it shows the raw body. |
| Rest.SentinelsIgnoreBody | client.go:208-219 | For 401, 404 and 405 the body does not affect the result. |
| Rest.NonEmpty | client.go:230-235 | The result keeps exactly the parameters with a non-empty value, unchanged. |
| Rest.QueryString | client.go:226-240 | The query is "" exactly when no value is non-empty. Otherwise it is "?" and the encoding of the non-empty pairs. |
| Rest.BuildQueryString | client.go:226-240 | The loop over the parameters returns the query that QueryString specifies. |
| Rest.EmptyValuesGiveNoQuery | client.go:227-238 | With every value empty, the query is "", whatever the keys. |
| Rest.BoolToString | client.go:256-261 | The result is non-empty exactly for true, and then it is "true". |
| Rest.FormatTimePtr | client.go:248-253 | A nil time gives "", and a set time gives its formatting. |
| Rest.HistoryParams | client.go:365-372 | No options give no parameters. Options give exactly the five history keys, holding the entity filter, the formatted end time ("" when nil) and each flag as "true" or "". |
| Rest.HistoryPath | client.go:365-374 | The path is the period path of the formatted timestamp. It is followed by "?" and the encoded non-empty parameters when there are any, and by nothing otherwise. |
| Rest.HistoryQueryOmitsUnset | client.go:365-374 | Each flag is in the query exactly when set, and then as "true". The entity filter is there exactly when non-empty, with its value. A nil end time is absent, and a set end time whose formatting is non-empty is sent formatted. |
| Rest.HistoryWithoutOptionsHasNoQuery | client.go:374 | No options, and options that set nothing, both ask for the bare period path. |
| Types.Flattened | types.go:120-129 | The keys are entity_id when it is set, plus every key of Data. Every Data value appears unchanged, and Data's entity_id overrides the field. |
| Types.MarshalJSON | types.go:120-129 | The conditional insert followed by the loop over Data builds exactly the union of Flattened. |
| Types.EmptyRequestIsEmptyObject | types.go:121-128 | No entity id and no data give the empty object. |
| Types.EntityService | automation.go:59-101 | The turn_on / turn_off / toggle wrappers fail with "entity_id is required" exactly for an empty id. Otherwise they call domain.service with only entity_id. |
| Fallback.MatchingAppend | automation.go:140-143 | Filtering a concatenation filters each part, so kept states stay in input order. |
| Fallback.MatchingSound | automation.go:140-143 | Every kept state comes from the input and has the domain prefix. |
| Fallback.MatchingComplete | automation.go:140-143 | Every input state with the domain prefix is kept. |
| Fallback.NonEmptyAttr | automation.go:158-163 | A value is returned exactly when the attribute is a non-empty JSON string, and it is that string. |
| Fallback.AliasOf | automation.go:150-155 | A string friendly_name, even an empty one, is the alias. Otherwise the alias is the entity id with the domain prefix removed. |
| Fallback.Collect | automation.go:139-171 | The loop yields one converted config per matching state, in order and nothing else. |
| Fallback.ListFailure | automation.go:133-136 | The error text starts with the operation and names both failures and both error texts. It unwraps to the config-endpoint error. |
| Automation.AutomationTrigger | automation.go:35-56 | A nil request or an empty id fails with "entity_id is required". Otherwise it calls automation.trigger for the entity. skip_condition is the only possible data key, present exactly when set and carrying that value. |
| Automation.FromState | automation.go:145-168 | A fallback config has id = entity id and the derived alias. Description and mode are set only from non-empty strings. Trigger and action are empty non-nil lists, and nothing else is set. |
| Automation.AutomationList | automation.go:122-174 | A successful endpoint list is returned unchanged. Otherwise, with the states available, the result is the converted automation states in order. With both sources failing, it is the double-failure error. |
| Automation.AutomationGet | automation.go:179-190 | An empty id fails with "automation id is required"; otherwise GET of the config path. |
| Automation.AutomationDeleteConfig | automation.go:241-251 | An empty id fails with "automation id is required"; otherwise DELETE of the config path. |
| Automation.SavePayload | automation.go:206-229 | The payload never has "id" and always has alias, trigger and action. Description, mode, max_exceeded and max are present exactly when set, and condition exactly when non-empty. There are no other keys. |
| Automation.AutomationSave | automation.go:195-236 | A nil config, then an empty id, then an empty alias are refused in that order, each with its own error. Otherwise the payload is POSTed to the config path. |
| Automation.SavePayloadRoundTrip | automation.go:206-231 | The path id and the payload give the configuration back, up to a nil-versus-empty condition. |
| Script.ScriptRun | script.go:160-179 | An empty id fails with "entity_id is required". An id without the "script." prefix fails with the invalid-format error. Otherwise it calls script.<rest of id>, with the variables as top-level data and no entity_id. |
| Script.ScriptRunNamesService | script.go:166-174 | For every name, running "script.<name>" calls the service <name> with the variables. |
| Script.ScriptTurnOn | script.go:185-206 | An empty id fails. Otherwise it calls script.turn_on with entity_id, nesting the variables under "variables" exactly when there are some. |
| Script.ConfigJSON | script.go:16-26 | id, alias and sequence are always written. Each omitempty field is written exactly when set, and there are no other keys. |
| Script.ConfigJSONRoundTrip | script.go:16-26 | Reading the saved body back gives every configuration unchanged. |
| Script.ScriptSave | script.go:110-129 | A nil config, then an empty id, an empty alias and an empty sequence are refused in that order. Otherwise the whole config is POSTed to its path. |
| Script.ScriptGet | script.go:94-105 | An empty id fails with "script id is required"; otherwise GET of the config path. |
| Script.ScriptDeleteConfig | script.go:134-144 | An empty id fails with "script id is required"; otherwise DELETE of the config path. |
| Script.FromState | script.go:61-83 | A fallback config has id = entity id and the derived alias. Description and mode come only from non-empty strings. The sequence is an empty non-nil list, and nothing else is set. |
| Script.ScriptList | script.go:38-89 | A successful endpoint list is returned unchanged. Otherwise, with the states available, the result is the converted script states in order. With both sources failing, it is the double-failure error. |
| WebSocket.WsScheme | websocket.go:120-127 | http gives ws and https gives wss. Any other scheme is "unsupported scheme: <scheme>". |
| WebSocket.EndpointPath | websocket.go:129 | Exactly one trailing "/" of the path is removed, if there is one, and /api/websocket is appended to the rest. |
| WebSocket.BuildWebSocketURL | websocket.go:113-131 | A parse error is returned as is, and a scheme other than http/https is refused. Otherwise the URL has the swapped scheme and keeps the host, with one trailing "/" of the path dropped and /api/websocket appended. What `url.URL.String` writes after the path (the query, a bare "?" for ForceQuery and the "#" fragment) follows unchanged. |
| WebSocket.WebSocketURLShape | websocket.go:119-130 | An http URL yields "ws://<host>…" and an https URL "wss://<host>…". Without query, forced "?" or fragment, the URL ends in /api/websocket. |
| WebSocket.WebSocketURLWithoutQuery | websocket.go:113-131 | Without query, forced "?" or fragment, the URL is the scheme, "://", the host and the endpoint path. |
| WebSocket.FragmentKept | websocket.go:129-130 | http://h/#x gives ws://h/api/websocket#x: the fragment follows the endpoint path. |
| WebSocket.ForcedQueryKept | websocket.go:129-130 | http://h/? gives ws://h/api/websocket?: a bare "?" survives. |
| WebSocket.EndpointOfRoot | websocket.go:129 | An empty path and "/" both give /api/websocket. |
| WebSocket.LocalWebSocketURL | websocket_test.go:365-379 | http://localhost:8123, with or without a trailing slash, gives ws://localhost:8123/api/websocket. |
| WebSocket.SecureWebSocketURL | websocket_test.go:370-374 | https://ha.example.com gives wss://ha.example.com/api/websocket. |
| WebSocket.FtpWebSocketURL | websocket.go:125-126 | An ftp URL is refused with "unsupported scheme: ftp". |
| WebSocket.AuthResponseError | websocket.go:160-171 | It succeeds exactly on auth_ok. auth_invalid gives "auth failed: " plus the message, or "invalid authentication" when the message is empty. Any other type gives "unexpected auth response: <type>". |
| WebSocket.Handshake | websocket.go:134-172 | The auth message is written only after a first message of type auth_required. A successful handshake did write it. At most the available messages are consumed. |
| WebSocket.NoCredentialsBeforeAuthRequired | websocket.go:136-143 | A first message other than auth_required ends the handshake after one read, with "expected auth_required, got <type>" and no credentials written. |
| WebSocket.HandshakeExchange | websocket.go:145-171 | After auth_required the token is written once, two messages are read, and the second decides the outcome. |
| WebSocket.Classify | websocket.go:240-251 | A present error gives WebSocketError{code, message}. Otherwise success=false with type "result" gives "command failed". Every other response is returned unchanged. |
| WebSocket.ErrorWinsOverSuccess | websocket.go:241-246 | A structured error wins over success, and its text is "websocket error [code]: message". |
| WebSocket.Chosen | websocket.go:235-240 | The select blocks exactly when no arm is ready, and the arm taken is always a ready one. |
| WebSocket.SelectOutcome | websocket.go:235-251 | It waits exactly while nothing is ready. With only the response ready, the result is its classification; with only close, "websocket connection closed"; with only cancellation, the context error. A success always comes from a response. |
| WebSocket.DecodeResult | websocket.go:287-291 | The result is decoded only when the caller wants it and the response carries one. A decode failure is wrapped with "decode result: ". |
| WebSocket.SendError | websocket.go:215-232 | sendCommand fails before waiting exactly when marshalling, unmarshalling or the write fails. |
| WebSocket.Dispatch | websocket.go:185-193 | Only pending ids are served, never id 0. Each served id gets a response carrying that id, taken from the frames read. |
| WebSocket.DispatchFirst | websocket.go:186-191 | A pending id that some frame carries is served by the first frame carrying it. |
| WebSocket.DispatchSource | websocket.go:186-191 | Whatever an id is served is the first frame that carries it. |
| WebSocket.DispatchMisses | websocket.go:186-191 | A pending non-zero id carried by any frame is served. |
| WebSocket.FramesUntilFailure | websocket.go:178-183 | The reader's frames are the inbox prefix before the first failed read. |
| WebSocket.Unserved | websocket.go:188-190 | The entries left pending are exactly those not served, unchanged. |
| WebSocket.WsConn.constructor | websocket.go:93-97 | A new session has counter 0, an empty registry and is open. |
| WebSocket.WsConn.Authenticate | websocket.go:134-172 | The result and the messages read and written are those of Handshake. The auth message is logged exactly when it was written. |
| WebSocket.WsConn.Send | websocket.go:198-232 | The id is the old counter + 1, never pending before. It stays registered with a fresh empty waiter only when encoding and write succeed. The command is written with "id" set to it exactly then. |
| WebSocket.WsConn.Await | websocket.go:209-251 | The outcome is SelectOutcome. A finished wait removes its id from the registry and leaves the other entries unchanged. The response slot is emptied when it was taken. |
| WebSocket.WsConn.Deliver | websocket.go:185-193 | A response for a pending non-zero id fills exactly that waiter and removes its entry. All other waiters and entries are unchanged. |
| WebSocket.WsConn.Close | websocket.go:255-260 | Afterwards done and the connection are closed. A second close changes nothing, and the registry and counter are kept. |
| WebSocket.WsConn.ReaderStep | websocket.go:179-193 | One iteration either dispatches the next frame or, on a failed read, closes the session. The Reading invariant is kept. |
| WebSocket.WsConn.Reader | websocket.go:175-195 | After the loop the session is closed. Each pending id has received the first response carrying it, and exactly the unserved ids are still pending with empty slots. Only the frames and the failed read were consumed. |
| WebSocket.OutOfOrderDispatch | websocket.go:185-193 | Two responses arriving in reverse order are each dispatched to their own id. |
| WebSocket.SendTwo | websocket.go:200-205 | Two commands on a fresh session get ids 1 and 2 and two distinct waiters. |
| WebSocket.ServeBoth | websocket.go:175-195 | A reader whose frames serve both pending ids fills both waiters and empties the registry. |
| WebSocket.TwoCallsOutOfOrder | websocket.go:198-251 | Two calls answered in reverse order each receive the classification of their own response when the select takes the response arm. Any other pick gives "websocket connection closed". The commands are written with ids 1 and 2. |
| Hago.NoBaseURLOption | client.go:62-91 | Without a WithBaseURL option the base URL stays empty, so New fails with ErrNoBaseURL. |
| Hago.TokenSurvivesBaseURLs | client.go:69-73 | Later WithBaseURL options never disturb the token set before them. |
| Hago.TrailingSlashDropped | client.go:28-34 | WithBaseURL("http://localhost:8123/") stores "http://localhost:8123", and the configuration validates. |
| Hago.ConnectError | websocket.go:77-103 | URL, dial and handshake errors are each wrapped with their step's prefix. It returns nil exactly when the URL builds, the dial succeeds and the handshake succeeds. |
| Hago.ConnectAccepted | websocket.go:99-110 | A server that sends auth_required and then auth_ok yields a session. |
| Hago.ConnectRejected | websocket.go:99-103 | auth_invalid with no message gives "websocket auth: auth failed: invalid authentication". |
| Hago.Client.constructor | client.go:63-67 | The zero client has empty base URL and token and no session. |
| Hago.Client.Apply | client.go:28-42 | WithBaseURL stores the normalised URL and WithToken the token. Nothing else changes. |
| Hago.Client.ConnectWebSocket | websocket.go:63-110 | An open session is kept, with no error. Otherwise the error is ConnectError. On success the session is fresh, with counter 0 and an empty registry, and only the auth message was written. On failure the client's session is unchanged. A connection is dialed exactly when there is no open session, the URL builds and the peer accepts. A failed handshake leaves that connection closed (websocket.go:99-102), and a successful one keeps it open as the session's connection. |
| Hago.Client.CloseWebSocket | websocket.go:263-271 | A present session is closed, done and connection both, and the client forgets it. |
| Hago.New | client.go:62-80 | The options run in order, then validate. New fails exactly when validation fails, with its error. On success the client is fresh, holds the last base URL (normalised) and the last token, and has no session. |

## Left out

- Network I/O: HTTP execution (`doRequest`, `doJSON`, `doText`, `doBytes`) and the gorilla/websocket dialer and frame codec are not modelled. A dial is a `Peer` value, and a connection's reads and writes are a scripted inbox and a sent log.
- Goroutines, `sync.Mutex`, `sync.Once`, `atomic.Int64` and channel blocking are not modelled; race freedom is not claimed. `closeOnce` is a `done` test, and blocking in `select` is a `None` outcome.
- `Hago.Client.ConnectWebSocket` does not start the reader. The reader runs as a separate call of `WebSocket.WsConn.Reader` on the session, over the whole scripted inbox at once.
- A scripted inbox that runs dry acts as a dropped connection: the reader closes the session, where gorilla/websocket's `ReadJSON` on a live connection would block. In `WebSocket.TwoCallsOutOfOrder` both the response arm and the closed arm are therefore ready when each caller selects, and the outcome depends on the pick.
- `wsCommand` is not one member: its steps are `ConnectWebSocket`, `Send`, `Await` and `DecodeResult`, which a caller runs in sequence.
- `WithHTTPClient` and `WithTimeout` are left out, because the HTTP transport is outside the model.
- WebSocket.BuildWebSocketURL: `url.URL.String` is modelled for scheme, host, path, query, ForceQuery and fragment only. User info ("user:pass@"), opaque URLs, RawPath and the escaping of path and fragment are not modelled.
- `url.Parse`, `url.URL.String` escaping, `url.Values.Encode` (percent-encoding and key order), `json.Marshal` / `json.Unmarshal`, `time.Format` and `time.ParseDuration` are abstract function parameters.
- The error texts that a closed or failed connection returns are placeholders. gorilla/websocket's own texts are not modelled.
- Errors wrapped after an I/O call returns (for example "automation get: %w" or "script run: %w") are not modelled, because they only decorate the network result.
- The reload wrappers (`AutomationReload`, `ScriptReload`) and the thin endpoint wrappers of client.go:264-454 are left out: they only fill a path.
- Cli.SetupLogger: letter case is folded for ASCII letters only. `strings.ToLower` also folds other Unicode letters, so Go accepts "İNFO" (capital I with dot above, which lower-cases to "i") as info, and the model refuses it.
- Automation.SavePayloadRoundTrip: a condition list that is allocated but empty is not distinguished from a nil one after a save, because the payload drops both. The lemma therefore requires the condition not to be an empty allocated list.
- Script.ScriptRun: for the id "script." itself, `strings.TrimPrefix` leaves an empty name that differs from the id. The call then goes to the empty service name, as the Go code does.
- Scan.ScanInt: the error texts of `fmt.Sscanf` are approximated. Only success, failure and the scanned value are modelled exactly.
