/**
 * Automation operations (automation.go): the input guards, the service data of a
 * trigger, the payload of a save, and the states fallback of the list.
 */
module Automation {

  import opened Wrappers
  import opened Strings
  import opened Json
  import opened Errors
  import opened Types
  import opened Fallback

  const Prefix: string := "automation."

  datatype TriggerRequest = TriggerRequest(entityID: string, skipCondition: Option<bool>)

  /** AutomationConfig of automation.go:22-32; a nil pointer field is None. */
  datatype AutomationConfig = AutomationConfig(
    id: string,
    alias: string,
    description: Option<string>,
    mode: string,
    maxExceeded: Option<string>,
    max: Option<int>,
    trigger: Slice,
    condition: Slice,
    action: Slice)

  /**
   * AutomationTrigger: a nil request or an empty entity id is refused before any call;
   * otherwise automation.trigger is called for the entity, with skip_condition in the
   * service data exactly when the request sets it.
   */
  function AutomationTrigger(req: Option<TriggerRequest>): (r: Result<ServiceCall, Error>)
    ensures r.Failure? <==> req.None? || req.value.entityID == ""
    ensures r.Failure? ==> r.error == Plain("entity_id is required")
    ensures r.Success? ==> r.value.domain == "automation" && r.value.service == "trigger"
    ensures r.Success? ==> r.value.request.entityID == req.value.entityID
    ensures r.Success? ==> ("skip_condition" in r.value.request.data <==> req.value.skipCondition.Some?)
    ensures r.Success? ==> r.value.request.data.Keys <= {"skip_condition"}
    ensures r.Success? && req.value.skipCondition.Some? ==>
      r.value.request.data["skip_condition"] == Bool(req.value.skipCondition.value)
  {
    if req.None? || req.value.entityID == "" then Failure(Plain("entity_id is required"))
    else
      var data := match req.value.skipCondition
        case Some(skip) => map["skip_condition" := Bool(skip)]
        case None => map[];
      Success(ServiceCall("automation", "trigger", ServiceCallRequest(req.value.entityID, data)))
  }

  /**
   * The configuration rebuilt from one automation entity in fallback mode: only the id,
   * the alias and the non-empty description and mode; trigger and action are empty lists.
   */
  function FromState(s: State): (c: AutomationConfig)
    ensures c.id == s.entityID && c.alias == AliasOf(s, Prefix)
    ensures c.description == NonEmptyAttr(s.attributes, "description")
    ensures c.mode != "" <==> NonEmptyAttr(s.attributes, "mode").Some?
    ensures c.mode != "" ==> s.attributes["mode"] == Str(c.mode)
    ensures c.trigger == Made([]) && c.action == Made([])
    ensures c.condition == Nil && c.maxExceeded == None && c.max == None
  {
    var mode := match NonEmptyAttr(s.attributes, "mode") case Some(m) => m case None => "";
    AutomationConfig(s.entityID, AliasOf(s, Prefix), NonEmptyAttr(s.attributes, "description"),
                     mode, None, None, Made([]), Nil, Made([]))
  }

  /**
   * AutomationList. `fromConfig` is the outcome of the configuration endpoint and
   * `fromStates` that of /api/states (only consulted when the first failed).
   */
  method AutomationList(fromConfig: Result<seq<AutomationConfig>, Error>, fromStates: Result<seq<State>, Error>)
    returns (r: Result<seq<AutomationConfig>, Error>)
    ensures fromConfig.Success? ==> r == fromConfig
    ensures fromConfig.Failure? && fromStates.Failure? ==>
      r == Failure(ListFailure("automation list: ", fromConfig.error, fromStates.error))
    ensures fromConfig.Failure? && fromStates.Success? ==>
      && r.Success?
      && |r.value| == |Matching(fromStates.value, Prefix)|
      && forall k :: 0 <= k < |r.value| ==> r.value[k] == FromState(Matching(fromStates.value, Prefix)[k])
  {
    if fromConfig.Success? {
      return fromConfig;
    }
    if fromStates.Failure? {
      return Failure(ListFailure("automation list: ", fromConfig.error, fromStates.error));
    }
    var configs := Collect(fromStates.value, Prefix, FromState);
    return Success(configs);
  }

  function ConfigPath(id: string): string {
    "/api/config/automation/config/" + id
  }

  /** AutomationGet: an empty id is refused; otherwise the configuration is fetched by id. */
  function AutomationGet(id: string): (r: Result<RestCall, Error>)
    ensures r.Failure? <==> id == ""
    ensures r.Failure? ==> r.error == Plain("automation id is required")
    ensures r.Success? ==> r.value == RestCall("GET", ConfigPath(id), None)
  {
    if id == "" then Failure(Plain("automation id is required"))
    else Success(RestCall("GET", ConfigPath(id), None))
  }

  /** AutomationDeleteConfig: an empty id is refused; otherwise the configuration is deleted by id. */
  function AutomationDeleteConfig(id: string): (r: Result<RestCall, Error>)
    ensures r.Failure? <==> id == ""
    ensures r.Failure? ==> r.error == Plain("automation id is required")
    ensures r.Success? ==> r.value == RestCall("DELETE", ConfigPath(id), None)
  {
    if id == "" then Failure(Plain("automation id is required"))
    else Success(RestCall("DELETE", ConfigPath(id), None))
  }

  /** The JSON keys of a saved automation: the id travels in the path, not the body. */
  const PayloadKeys: set<string> := {"alias", "description", "trigger", "condition", "action", "mode", "max_exceeded", "max"}

  /** The value the save body carries under `key`, None for an optional field that is unset. */
  function PayloadField(c: AutomationConfig, key: string): Option<Value> {
    match key
    case "alias" => Some(Str(c.alias))
    case "trigger" => Some(c.trigger.Encode())
    case "action" => Some(c.action.Encode())
    case "description" => if c.description.Some? then Some(Str(c.description.value)) else None
    case "mode" => if c.mode != "" then Some(Str(c.mode)) else None
    case "max_exceeded" => if c.maxExceeded.Some? then Some(Str(c.maxExceeded.value)) else None
    case "max" => if c.max.Some? then Some(Num(c.max.value)) else None
    case "condition" => if c.condition.Len() > 0 then Some(c.condition.Encode()) else None
    case _ => None
  }

  /**
   * The body of a save: never the id (it travels in the path), always alias, trigger and
   * action, and the optional fields only when set.
   */
  function SavePayload(c: AutomationConfig): (p: map<string, Value>)
    ensures "id" !in p
    ensures "alias" in p && "trigger" in p && "action" in p
    ensures "description" in p <==> c.description.Some?
    ensures "mode" in p <==> c.mode != ""
    ensures "max_exceeded" in p <==> c.maxExceeded.Some?
    ensures "max" in p <==> c.max.Some?
    ensures "condition" in p <==> c.condition.Len() > 0
    ensures p.Keys <= PayloadKeys
  {
    map k | k in PayloadKeys && PayloadField(c, k).Some? :: PayloadField(c, k).value
  }

  /**
   * AutomationSave: refuses a nil config, then an empty id, then an empty alias, and
   * otherwise POSTs the payload to the configuration's path.
   */
  function AutomationSave(config: Option<AutomationConfig>): (r: Result<RestCall, Error>)
    ensures config.None? ==> r == Failure(Plain("automation config is required"))
    ensures config.Some? && config.value.id == "" ==> r == Failure(Plain("automation id is required"))
    ensures config.Some? && config.value.id != "" && config.value.alias == "" ==>
      r == Failure(Plain("automation alias is required"))
    ensures r.Success? <==> config.Some? && config.value.id != "" && config.value.alias != ""
    ensures r.Success? ==> r.value == RestCall("POST", ConfigPath(config.value.id), Some(Obj(SavePayload(config.value))))
  {
    if config.None? then Failure(Plain("automation config is required"))
    else if config.value.id == "" then Failure(Plain("automation id is required"))
    else if config.value.alias == "" then Failure(Plain("automation alias is required"))
    else Success(RestCall("POST", ConfigPath(config.value.id), Some(Obj(SavePayload(config.value)))))
  }

  /** A string field of a payload, or "" when absent. */
  function StrField(p: map<string, Value>, key: string): string {
    if key in p && p[key].Str? then p[key].s else ""
  }

  /** Reads a saved configuration back from its path id and body. */
  function FromPayload(id: string, p: map<string, Value>): AutomationConfig {
    AutomationConfig(
      id,
      StrField(p, "alias"),
      StringAttr(p, "description"),
      StrField(p, "mode"),
      StringAttr(p, "max_exceeded"),
      if "max" in p && p["max"].Num? then Some(p["max"].n) else None,
      if "trigger" in p then DecodeSlice(p["trigger"]) else Nil,
      if "condition" in p then DecodeSlice(p["condition"]) else Nil,
      if "action" in p then DecodeSlice(p["action"]) else Nil)
  }

  /**
   * The save payload loses nothing but the difference between a nil and an empty
   * condition list: the path id and the body give the configuration back.
   */
  lemma SavePayloadRoundTrip(c: AutomationConfig)
    requires c.condition != Made([])
    ensures FromPayload(c.id, SavePayload(c)) == c
  {
    var p := SavePayload(c);
    assert DecodeSlice(c.trigger.Encode()) == c.trigger by { SliceRoundTrip(c.trigger); }
    assert DecodeSlice(c.action.Encode()) == c.action by { SliceRoundTrip(c.action); }
    if c.condition.Len() > 0 {
      SliceRoundTrip(c.condition);
    }
  }
}
