/**
 * Script operations (script.go): the input guards, the service name taken from an
 * entity id, the nesting of turn_on variables, the save body and the states fallback
 * of the list.
 */
module Script {

  import opened Wrappers
  import opened Strings
  import opened Json
  import opened Errors
  import opened Types
  import opened Fallback

  const Prefix: string := "script."

  /** ScriptConfig of script.go:16-26; a nil pointer is None, a nil map the empty map. */
  datatype ScriptConfig = ScriptConfig(
    id: string,
    alias: string,
    sequence: Slice,
    mode: string,
    max: Option<int>,
    icon: Option<string>,
    description: Option<string>,
    fields: map<string, Value>,
    variables: map<string, Value>)

  /**
   * ScriptRun: the entity id must be set and start with "script."; the service called is
   * the rest of the id, and the variables travel as top-level service data with no
   * entity_id of their own.
   */
  function ScriptRun(entityID: string, variables: map<string, Value>): (r: Result<ServiceCall, Error>)
    ensures entityID == "" ==> r == Failure(Plain("entity_id is required"))
    ensures entityID != "" && !HasPrefix(entityID, Prefix) ==>
      r == Failure(Plain("invalid entity_id format: expected 'script.*', got '" + entityID + "'"))
    ensures r.Success? <==> entityID != "" && HasPrefix(entityID, Prefix)
    ensures r.Success? ==> r.value.domain == "script" && Prefix + r.value.service == entityID
    ensures r.Success? ==> Flattened(r.value.request) == variables
  {
    if entityID == "" then Failure(Plain("entity_id is required"))
    else
      var name := TrimPrefix(entityID, Prefix);
      if name == entityID then
        Failure(Plain("invalid entity_id format: expected 'script.*', got '" + entityID + "'"))
      else
        Success(ServiceCall("script", name, ServiceCallRequest("", variables)))
  }

  /** The service named by a script entity id is the one ScriptRun calls, for every script id. */
  lemma ScriptRunNamesService(name: string, variables: map<string, Value>)
    ensures ScriptRun(Prefix + name, variables) == Success(ServiceCall("script", name, ServiceCallRequest("", variables)))
  {
    var id := Prefix + name;
    assert id[..|Prefix|] == Prefix;
    assert id[|Prefix|..] == name;
  }

  /**
   * ScriptTurnOn: script.turn_on for the entity, with the variables nested under a single
   * "variables" key, and only when there are some.
   */
  function ScriptTurnOn(entityID: string, variables: map<string, Value>): (r: Result<ServiceCall, Error>)
    ensures r.Failure? <==> entityID == ""
    ensures r.Failure? ==> r.error == Plain("entity_id is required")
    ensures r.Success? ==> r.value.domain == "script" && r.value.service == "turn_on"
    ensures r.Success? ==> r.value.request.entityID == entityID
    ensures r.Success? && |variables| > 0 ==> r.value.request.data == map["variables" := Obj(variables)]
    ensures r.Success? && |variables| == 0 ==> Flattened(r.value.request) == map["entity_id" := Str(entityID)]
  {
    if entityID == "" then Failure(Plain("entity_id is required"))
    else
      var data := if |variables| > 0 then map["variables" := Obj(variables)] else map[];
      Success(ServiceCall("script", "turn_on", ServiceCallRequest(entityID, data)))
  }

  /** The JSON keys of a ScriptConfig. */
  const JsonKeys: set<string> := {"id", "alias", "sequence", "mode", "max", "icon", "description", "fields", "variables"}

  /** The value encoding/json writes under `key`, None for an omitempty field that is unset. */
  function Field(c: ScriptConfig, key: string): Option<Value> {
    match key
    case "id" => Some(Str(c.id))
    case "alias" => Some(Str(c.alias))
    case "sequence" => Some(c.sequence.Encode())
    case "mode" => if c.mode != "" then Some(Str(c.mode)) else None
    case "max" => if c.max.Some? then Some(Num(c.max.value)) else None
    case "icon" => if c.icon.Some? then Some(Str(c.icon.value)) else None
    case "description" => if c.description.Some? then Some(Str(c.description.value)) else None
    case "fields" => if |c.fields| > 0 then Some(Obj(c.fields)) else None
    case "variables" => if |c.variables| > 0 then Some(Obj(c.variables)) else None
    case _ => None
  }

  /** The JSON object encoding/json writes for a ScriptConfig: the omitempty fields only when set. */
  function ConfigJSON(c: ScriptConfig): (p: map<string, Value>)
    ensures "id" in p && "alias" in p && "sequence" in p
    ensures "mode" in p <==> c.mode != ""
    ensures "max" in p <==> c.max.Some?
    ensures "icon" in p <==> c.icon.Some?
    ensures "description" in p <==> c.description.Some?
    ensures "fields" in p <==> |c.fields| > 0
    ensures "variables" in p <==> |c.variables| > 0
    ensures p.Keys <= JsonKeys
  {
    map k | k in JsonKeys && Field(c, k).Some? :: Field(c, k).value
  }

  /** Reads a script configuration back from its JSON object. */
  function FromJSON(p: map<string, Value>): ScriptConfig {
    ScriptConfig(
      StrField(p, "id"),
      StrField(p, "alias"),
      if "sequence" in p then DecodeSlice(p["sequence"]) else Nil,
      StrField(p, "mode"),
      if "max" in p && p["max"].Num? then Some(p["max"].n) else None,
      StringAttr(p, "icon"),
      StringAttr(p, "description"),
      ObjField(p, "fields"),
      ObjField(p, "variables"))
  }

  function StrField(p: map<string, Value>, key: string): string {
    if key in p && p[key].Str? then p[key].s else ""
  }

  function ObjField(p: map<string, Value>, key: string): map<string, Value> {
    if key in p && p[key].Obj? then p[key].fields else map[]
  }

  /** The save body loses nothing: every configuration is read back from it unchanged. */
  lemma ConfigJSONRoundTrip(c: ScriptConfig)
    ensures FromJSON(ConfigJSON(c)) == c
  {
    SliceRoundTrip(c.sequence);
    var p := ConfigJSON(c);
    assert ObjField(p, "fields") == c.fields;
    assert ObjField(p, "variables") == c.variables;
  }

  function ConfigPath(id: string): string {
    "/api/config/script/config/" + id
  }

  /**
   * ScriptSave: refuses a nil config, an empty id, an empty alias and an empty sequence,
   * in that order, and otherwise POSTs the whole configuration to its path.
   */
  function ScriptSave(config: Option<ScriptConfig>): (r: Result<RestCall, Error>)
    ensures config.None? ==> r == Failure(Plain("script config is required"))
    ensures config.Some? && config.value.id == "" ==> r == Failure(Plain("script id is required"))
    ensures config.Some? && config.value.id != "" && config.value.alias == "" ==>
      r == Failure(Plain("script alias is required"))
    ensures config.Some? && config.value.id != "" && config.value.alias != "" && config.value.sequence.Len() == 0 ==>
      r == Failure(Plain("script sequence is required"))
    ensures r.Success? <==>
      config.Some? && config.value.id != "" && config.value.alias != "" && config.value.sequence.Len() > 0
    ensures r.Success? ==> r.value == RestCall("POST", ConfigPath(config.value.id), Some(Obj(ConfigJSON(config.value))))
  {
    if config.None? then Failure(Plain("script config is required"))
    else if config.value.id == "" then Failure(Plain("script id is required"))
    else if config.value.alias == "" then Failure(Plain("script alias is required"))
    else if config.value.sequence.Len() == 0 then Failure(Plain("script sequence is required"))
    else Success(RestCall("POST", ConfigPath(config.value.id), Some(Obj(ConfigJSON(config.value)))))
  }

  /** ScriptGet: an empty id is refused; otherwise the configuration is fetched by id. */
  function ScriptGet(id: string): (r: Result<RestCall, Error>)
    ensures r.Failure? <==> id == ""
    ensures r.Failure? ==> r.error == Plain("script id is required")
    ensures r.Success? ==> r.value == RestCall("GET", ConfigPath(id), None)
  {
    if id == "" then Failure(Plain("script id is required"))
    else Success(RestCall("GET", ConfigPath(id), None))
  }

  /** ScriptDeleteConfig: an empty id is refused; otherwise the configuration is deleted by id. */
  function ScriptDeleteConfig(id: string): (r: Result<RestCall, Error>)
    ensures r.Failure? <==> id == ""
    ensures r.Failure? ==> r.error == Plain("script id is required")
    ensures r.Success? ==> r.value == RestCall("DELETE", ConfigPath(id), None)
  {
    if id == "" then Failure(Plain("script id is required"))
    else Success(RestCall("DELETE", ConfigPath(id), None))
  }

  /**
   * The configuration rebuilt from one script entity in fallback mode: the id, the alias,
   * the non-empty description and mode, and an empty sequence.
   */
  function FromState(s: State): (c: ScriptConfig)
    ensures c.id == s.entityID && c.alias == AliasOf(s, Prefix)
    ensures c.description == NonEmptyAttr(s.attributes, "description")
    ensures c.mode != "" <==> NonEmptyAttr(s.attributes, "mode").Some?
    ensures c.mode != "" ==> s.attributes["mode"] == Str(c.mode)
    ensures c.sequence == Made([])
    ensures c.max == None && c.icon == None && c.fields == map[] && c.variables == map[]
  {
    var mode := match NonEmptyAttr(s.attributes, "mode") case Some(m) => m case None => "";
    ScriptConfig(s.entityID, AliasOf(s, Prefix), Made([]), mode, None, None,
                 NonEmptyAttr(s.attributes, "description"), map[], map[])
  }

  /**
   * ScriptList. `fromConfig` is the outcome of the configuration endpoint and
   * `fromStates` that of /api/states (only consulted when the first failed).
   */
  method ScriptList(fromConfig: Result<seq<ScriptConfig>, Error>, fromStates: Result<seq<State>, Error>)
    returns (r: Result<seq<ScriptConfig>, Error>)
    ensures fromConfig.Success? ==> r == fromConfig
    ensures fromConfig.Failure? && fromStates.Failure? ==>
      r == Failure(ListFailure("script list: ", fromConfig.error, fromStates.error))
    ensures fromConfig.Failure? && fromStates.Success? ==>
      && r.Success?
      && |r.value| == |Matching(fromStates.value, Prefix)|
      && forall k :: 0 <= k < |r.value| ==> r.value[k] == FromState(Matching(fromStates.value, Prefix)[k])
  {
    if fromConfig.Success? {
      return fromConfig;
    }
    if fromStates.Failure? {
      return Failure(ListFailure("script list: ", fromConfig.error, fromStates.error));
    }
    var configs := Collect(fromStates.value, Prefix, FromState);
    return Success(configs);
  }
}
