/**
 * The REST side of the client (client.go): configuration checks, the mapping of an
 * HTTP response status to an error, and the query strings of History.
 */
module Rest {

  import opened Wrappers
  import opened Strings
  import opened Errors

  /** validate: the base URL is checked before the token. */
  function Validate(baseURL: string, token: string): (r: Option<Error>)
    ensures baseURL == "" ==> r == Some(NoBaseURL)
    ensures baseURL != "" && token == "" ==> r == Some(NoToken)
    ensures r.None? <==> baseURL != "" && token != ""
  {
    if baseURL == "" then Some(NoBaseURL)
    else if token == "" then Some(NoToken)
    else None
  }

  /** WithBaseURL's normalisation: at most one trailing slash is removed. */
  function NormalizeBaseURL(baseURL: string): (r: string)
    ensures HasSuffix(baseURL, "/") ==> r + "/" == baseURL
    ensures !HasSuffix(baseURL, "/") ==> r == baseURL
  {
    TrimSuffix(baseURL, "/")
  }

  /** Only one slash goes: "http://localhost:8123//" keeps one of its two. */
  lemma NormalizeRemovesOneSlash(host: string)
    ensures NormalizeBaseURL(host + "/") == host
    ensures NormalizeBaseURL(host + "//") == host + "/"
  {
    assert (host + "/")[|host + "/"| - 1..] == "/";
    assert (host + "//")[|host + "//"| - 1..] == "/";
    assert (host + "//")[..|host + "//"| - 1] == host + "/";
  }

  /** The message of a JSON error body, "" when it cannot be decoded or has none. */
  function BodyMessage(body: string, decodeMessage: string -> Option<string>): string {
    match decodeMessage(body)
    case Some(m) => m
    case None => ""
  }

  /**
   * checkResponse. `decodeMessage` stands for json.Unmarshal of the body into
   * {"message": ...}: None when the body is not such JSON.
   */
  function CheckResponse(statusCode: int, status: string, body: string, decodeMessage: string -> Option<string>): (r: Option<Error>)
    ensures r.None? <==> 200 <= statusCode < 300
    ensures statusCode == 401 ==> r == Some(Unauthorized)
    ensures statusCode == 404 ==> r == Some(NotFound)
    ensures statusCode == 405 ==> r == Some(MethodNotAllowed)
    ensures statusCode == 400 && BodyMessage(body, decodeMessage) == "" ==> r == Some(BadRequest)
    ensures statusCode == 400 && BodyMessage(body, decodeMessage) != "" ==>
      r == Some(API(400, status, BodyMessage(body, decodeMessage), body))
    ensures !(200 <= statusCode < 300) && statusCode !in {400, 401, 404, 405} ==>
      r == Some(API(statusCode, status, BodyMessage(body, decodeMessage), body))
  {
    if 200 <= statusCode < 300 then None
    else
      var apiErr := API(statusCode, status, BodyMessage(body, decodeMessage), body);
      if statusCode == 401 then Some(Unauthorized)
      else if statusCode == 404 then Some(NotFound)
      else if statusCode == 400 then (if apiErr.message != "" then Some(apiErr) else Some(BadRequest))
      else if statusCode == 405 then Some(MethodNotAllowed)
      else Some(apiErr)
  }

  /**
   * Every error checkResponse builds from a status outside 400, 401, 404 and 405 reads
   * "API error <code> (<status>)", followed by the message or else the raw body.
   */
  lemma CheckResponseText(statusCode: int, status: string, body: string, decodeMessage: string -> Option<string>)
    requires !(200 <= statusCode < 300) && statusCode !in {400, 401, 404, 405}
    ensures var r := CheckResponse(statusCode, status, body, decodeMessage);
      && r.Some?
      && HasPrefix(Text(r.value), "API error " + IntToString(statusCode) + " (" + status + ")")
      && (BodyMessage(body, decodeMessage) == "" ==>
            Text(r.value) == APIErrorHead(statusCode, status) + (if body != "" then ": " + body else ""))
  {
  }

  /** The sentinel statuses do not look at the body. */
  lemma SentinelsIgnoreBody(statusCode: int, status: string, body1: string, body2: string, decodeMessage: string -> Option<string>)
    requires statusCode in {401, 404, 405}
    ensures CheckResponse(statusCode, status, body1, decodeMessage) == CheckResponse(statusCode, status, body2, decodeMessage)
  {
  }

  /** The parameters with a non-empty value: the ones url.Values receives. */
  function NonEmpty(params: map<string, string>): (m: map<string, string>)
    ensures forall k :: k in m <==> k in params && params[k] != ""
    ensures forall k :: k in m ==> m[k] == params[k]
  {
    map k | k in params && params[k] != "" :: params[k]
  }

  /**
   * What buildQueryString returns. `encode` stands for url.Values.Encode (the
   * percent-encoding and the key order are not modelled).
   */
  function QueryString(params: map<string, string>, encode: map<string, string> -> string): (r: string)
    ensures r == "" <==> NonEmpty(params) == map[]
    ensures r != "" ==> r == "?" + encode(NonEmpty(params))
  {
    var values := NonEmpty(params);
    if values == map[] then "" else "?" + encode(values)
  }

  /** buildQueryString: the early return for no parameters, then the loop that drops empty values. */
  method BuildQueryString(params: map<string, string>, encode: map<string, string> -> string) returns (r: string)
    ensures r == QueryString(params, encode)
  {
    if |params| == 0 {
      return "";
    }
    var values: map<string, string> := map[];
    var rest := params.Keys;
    while rest != {}
      invariant rest <= params.Keys
      invariant forall k :: k in values <==> k in params && k !in rest && params[k] != ""
      invariant forall k :: k in values ==> values[k] == params[k]
      decreases rest
    {
      var k :| k in rest;
      if params[k] != "" {
        values := values[k := params[k]];
      }
      rest := rest - {k};
    }
    assert values == NonEmpty(params);
    if |values| == 0 {
      return "";
    }
    return "?" + encode(values);
  }

  /** No query at all when every value is empty, whatever the keys. */
  lemma EmptyValuesGiveNoQuery(params: map<string, string>, encode: map<string, string> -> string)
    requires forall k :: k in params ==> params[k] == ""
    ensures QueryString(params, encode) == ""
  {
    assert NonEmpty(params) == map[];
  }

  /** A point in time, as nanoseconds since the Unix epoch. */
  type Time = int

  /** boolToString: "true", or "" so that a false flag is dropped from the query. */
  function BoolToString(b: bool): (r: string)
    ensures r != "" <==> b
    ensures b ==> r == "true"
  {
    if b then "true" else ""
  }

  /**
   * formatTimePtr: "" for a nil time, otherwise `format` (time.Format with RFC 3339,
   * left abstract) of the time.
   */
  function FormatTimePtr(t: Option<Time>, format: Time -> string): (r: string)
    ensures t.None? ==> r == ""
    ensures t.Some? ==> r == format(t.value)
  {
    match t
    case None => ""
    case Some(v) => format(v)
  }

  datatype HistoryOptions = HistoryOptions(
    filterEntityID: string,
    endTime: Option<Time>,
    minimalResponse: bool,
    noAttributes: bool,
    significantChangesOnly: bool)

  /** The parameter map History builds: nothing without options, five keys with them. */
  function HistoryParams(opts: Option<HistoryOptions>, format: Time -> string): (p: map<string, string>)
    ensures opts.None? ==> p == map[]
    ensures opts.Some? ==> p.Keys == {"filter_entity_id", "end_time", "minimal_response", "no_attributes", "significant_changes_only"}
    ensures opts.Some? ==>
      && p["filter_entity_id"] == opts.value.filterEntityID
      && p["end_time"] == FormatTimePtr(opts.value.endTime, format)
      && p["minimal_response"] == BoolToString(opts.value.minimalResponse)
      && p["no_attributes"] == BoolToString(opts.value.noAttributes)
      && p["significant_changes_only"] == BoolToString(opts.value.significantChangesOnly)
  {
    match opts
    case None => map[]
    case Some(o) =>
      map["filter_entity_id" := o.filterEntityID,
          "end_time" := FormatTimePtr(o.endTime, format),
          "minimal_response" := BoolToString(o.minimalResponse),
          "no_attributes" := BoolToString(o.noAttributes),
          "significant_changes_only" := BoolToString(o.significantChangesOnly)]
  }

  /** The request path of History: the period path, then the query of the non-empty parameters. */
  function HistoryPath(timestamp: Time, opts: Option<HistoryOptions>, format: Time -> string,
                       encode: map<string, string> -> string): (r: string)
    ensures HasPrefix(r, "/api/history/period/" + format(timestamp))
    ensures NonEmpty(HistoryParams(opts, format)) == map[] ==> r == "/api/history/period/" + format(timestamp)
    ensures NonEmpty(HistoryParams(opts, format)) != map[] ==>
      r == "/api/history/period/" + format(timestamp) + "?" + encode(NonEmpty(HistoryParams(opts, format)))
  {
    "/api/history/period/" + format(timestamp) + QueryString(HistoryParams(opts, format), encode)
  }

  /**
   * False flags, a nil end time and an empty entity filter are left out of the query:
   * a flag is sent, as "true", exactly when it is set.
   */
  lemma HistoryQueryOmitsUnset(o: HistoryOptions, format: Time -> string)
    ensures var q := NonEmpty(HistoryParams(Some(o), format));
      && ("minimal_response" in q <==> o.minimalResponse)
      && ("no_attributes" in q <==> o.noAttributes)
      && ("significant_changes_only" in q <==> o.significantChangesOnly)
      && ("filter_entity_id" in q <==> o.filterEntityID != "")
      && (o.endTime.None? ==> "end_time" !in q)
      && (o.minimalResponse ==> q["minimal_response"] == "true")
      && (o.noAttributes ==> q["no_attributes"] == "true")
      && (o.significantChangesOnly ==> q["significant_changes_only"] == "true")
      && (o.filterEntityID != "" ==> q["filter_entity_id"] == o.filterEntityID)
      && (o.endTime.Some? && format(o.endTime.value) != "" ==> q["end_time"] == format(o.endTime.value))
  {
  }

  /** With no options, or options that set nothing, History asks for the bare period. */
  lemma HistoryWithoutOptionsHasNoQuery(timestamp: Time, o: HistoryOptions, format: Time -> string,
                                        encode: map<string, string> -> string)
    requires o == HistoryOptions("", None, false, false, false)
    ensures HistoryPath(timestamp, None, format, encode) == "/api/history/period/" + format(timestamp)
    ensures HistoryPath(timestamp, Some(o), format, encode) == "/api/history/period/" + format(timestamp)
  {
    EmptyValuesGiveNoQuery(HistoryParams(Some(o), format), encode);
    assert QueryString(HistoryParams(None, format), encode) == "" by {
      assert NonEmpty(map[]) == map[];
    }
  }
}
