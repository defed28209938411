/** The values the report client exchanges with the placement service:
    resource provider records, the outcome of one request, and the case
    analysis the client applies to HTTP status codes. */
module Placement {

  datatype Option<+T> = None | Some(value: T)

  /** A resource provider record (`objects.ResourceProvider`): the provider's
      UUID, its display name and the generation the placement service keeps
      for optimistic concurrency control. */
  datatype ResourceProvider = ResourceProvider(uuid: string, name: string, generation: int)

  /** The two fields of a compute node that reconciliation reads. Its
      hypervisor hostname may be missing. */
  datatype ComputeNode = ComputeNode(uuid: string, hypervisorHostname: Option<string>)

  /** What one request to the placement service yields: a response (its status
      code and the `name` and `generation` fields of its JSON body), or one of
      the three transport faults the keystone session raises and the client
      catches. */
  datatype Outcome =
    | Response(status: int, name: string, generation: int)
    | EndpointNotFound
    | MissingAuthPlugin
    | ConnectFailure

  /** 200 OK (RFC 9110, section 15.3.1). */
  const StatusOk := 200
  /** 201 Created (RFC 9110, section 15.3.2). */
  const StatusCreated := 201
  /** 404 Not Found (RFC 9110, section 15.5.5). */
  const StatusNotFound := 404
  /** 409 Conflict (RFC 9110, section 15.5.10). */
  const StatusConflict := 409

  /** The generation the placement service gives a provider it has just created. */
  const InitialGeneration := 1

  /** A fault that only an operator can repair: no placement endpoint in the
      service catalog, or no authentication configured. */
  predicate IsConfigFault(o: Outcome) {
    o.EndpointNotFound? || o.MissingAuthPlugin?
  }

  /** The record a GET of `/resource_providers/<uuid>` denotes when it is
      answered with `status` and a body carrying `name` and `generation`:
      only 200 yields a record; 404 (the provider does not exist) and every
      other status (an error that is logged) yield none. */
  function FetchedRecord(uuid: string, status: int, name: string, generation: int): (rp: Option<ResourceProvider>)
    ensures rp.Some? <==> status == StatusOk
    ensures rp.Some? ==> rp.value.uuid == uuid && rp.value.name == name && rp.value.generation == generation
  {
    if status == StatusOk then Some(ResourceProvider(uuid, name, generation))
    else if status == StatusNotFound then None
    else None
  }

  /** How the client reads the status of a POST to `/resource_providers`. */
  datatype CreateVerdict =
    | Created   // the record now exists as the client described it
    | Conflict  // another client created a provider with this UUID first
    | Failed    // any other status: an error that is logged

  function VerdictOf(status: int): (v: CreateVerdict)
    ensures v.Created? <==> status == StatusCreated
    ensures v.Conflict? <==> status == StatusConflict
    ensures v.Failed? <==> status != StatusCreated && status != StatusConflict
  {
    if status == StatusCreated then Created
    else if status == StatusConflict then Conflict
    else Failed
  }

  /** Python's `name or uuid`: a missing or empty name falls back to the UUID. */
  function EffectiveName(uuid: string, name: Option<string>): (r: string)
    ensures name.Some? && name.value != "" ==> r == name.value
    ensures name.None? || name.value == "" ==> r == uuid
  {
    match name
    case Some(n) => if n != "" then n else uuid
    case None => uuid
  }
}
