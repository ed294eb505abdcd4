/**
 * The request and response shapes the modelled operations exchange with the REST API
 * (types.go), and the outgoing calls they prepare.
 */
module Types {

  import opened Wrappers
  import opened Json
  import opened Errors

  /** A service-call body: an optional target entity plus free-form service data. */
  datatype ServiceCallRequest = ServiceCallRequest(entityID: string, data: map<string, Value>)

  /** An entity state as /api/states returns it (timestamps and context left out). */
  datatype State = State(entityID: string, state: string, attributes: map<string, Value>)

  /** A POST to /api/services/<domain>/<service>, as CallService makes it. */
  datatype ServiceCall = ServiceCall(domain: string, service: string, request: ServiceCallRequest)

  /** A REST request an operation makes: method, path under the base URL, optional JSON body. */
  datatype RestCall = RestCall(verb: string, path: string, body: Option<Value>)

  /** The top-level fields contributed by the entity id: none when it is empty. */
  function EntityField(entityID: string): map<string, Value> {
    if entityID != "" then map["entity_id" := Str(entityID)] else map[]
  }

  /**
   * The object ServiceCallRequest.MarshalJSON writes: `entity_id` when set, and every key
   * of `data` at top level; a `data` entry named entity_id takes precedence.
   */
  function Flattened(req: ServiceCallRequest): (m: map<string, Value>)
    ensures m.Keys == EntityField(req.entityID).Keys + req.data.Keys
    ensures "entity_id" in m <==> req.entityID != "" || "entity_id" in req.data
    ensures forall k :: k in req.data ==> k in m && m[k] == req.data[k]
    ensures req.entityID != "" && "entity_id" !in req.data ==> m["entity_id"] == Str(req.entityID)
  {
    EntityField(req.entityID) + req.data
  }

  /** MarshalJSON: the conditional entity_id insert, then one insert per key of `data`. */
  method MarshalJSON(req: ServiceCallRequest) returns (m: map<string, Value>)
    ensures m == Flattened(req)
  {
    m := map[];
    if req.entityID != "" {
      m := m["entity_id" := Str(req.entityID)];
    }
    var rest := req.data.Keys;
    while rest != {}
      invariant rest <= req.data.Keys
      invariant m.Keys == EntityField(req.entityID).Keys + (req.data.Keys - rest)
      invariant forall k :: k in req.data && k !in rest ==> m[k] == req.data[k]
      invariant forall k :: k in m && k !in req.data ==> m[k] == EntityField(req.entityID)[k]
      decreases rest
    {
      var k :| k in rest;
      m := m[k := req.data[k]];
      rest := rest - {k};
    }
  }

  /** An empty request marshals to the empty object. */
  lemma EmptyRequestIsEmptyObject()
    ensures Flattened(ServiceCallRequest("", map[])) == map[]
  {
  }

  /** The guard shared by the turn_on / turn_off / toggle wrappers: an entity id is required. */
  function EntityService(domain: string, service: string, entityID: string): (r: Result<ServiceCall, Error>)
    ensures r.Failure? <==> entityID == ""
    ensures r.Failure? ==> r.error == Plain("entity_id is required")
    ensures r.Success? ==> r.value.domain == domain && r.value.service == service
    ensures r.Success? ==> Flattened(r.value.request) == map["entity_id" := Str(entityID)]
  {
    if entityID == "" then Failure(Plain("entity_id is required"))
    else Success(ServiceCall(domain, service, ServiceCallRequest(entityID, map[])))
  }
}
