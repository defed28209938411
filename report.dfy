/** The reconciliation engine of the scheduler report client: the safe_connect
    latch, the two wrapped calls to the placement service, and the
    get-or-create cache of resource provider records.

    The transport is a script of outcomes consumed in order, one per request.
    The functions below give the meaning of each operation on values; the
    class `SchedulerReportClient` updates its fields in place and is proved
    against them. */
module Report {
  import opened Placement

  /** The client's own state: `_resource_providers` and `_disabled`. */
  datatype ClientState = ClientState(cache: map<string, ResourceProvider>, disabled: bool)

  /** What one wrapped call did: the record it returned (None for Python's
      None), the latch afterwards, and how many outcomes it consumed. */
  datatype Call = Call(rp: Option<ResourceProvider>, disabled: bool, used: nat)

  /** What one reconciliation did: the state afterwards, the record it
      returned, and how many outcomes it consumed. */
  datatype Reconciliation = Reconciliation(state: ClientState, rp: Option<ResourceProvider>, used: nat)

  /** What a run of reconciliations did: the final state and the outcomes consumed. */
  datatype Progress = Progress(state: ClientState, used: nat)

  /** Every cached record is stored under its own UUID. */
  predicate CacheKeyed(cache: map<string, ResourceProvider>) {
    forall k :: k in cache ==> cache[k].uuid == k
  }

  /** `after` keeps every entry of `before` unchanged. */
  predicate CacheGrows(before: map<string, ResourceProvider>, after: map<string, ResourceProvider>) {
    forall k :: k in before ==> k in after && after[k] == before[k]
  }

  /** The latch once safe_connect's except clauses have handled `fault`:
      a configuration fault disables the client for good, a connection
      failure leaves it as it was. */
  function Latch(disabled: bool, fault: Outcome): bool
    requires !fault.Response?
  {
    if IsConfigFault(fault) then true else disabled
  }

  /** `_get_resource_provider(uuid)` under safe_connect. */
  function Fetch(disabled: bool, uuid: string, replies: seq<Outcome>): (c: Call)
    requires |replies| >= 1
    ensures disabled ==> c == Call(None, true, 0)
    ensures !disabled ==> c.used == 1
    ensures c.disabled <==> disabled || IsConfigFault(replies[0])
    ensures c.rp.Some? <==> !disabled && replies[0].Response? && replies[0].status == StatusOk
    ensures c.rp.Some? ==> c.rp.value == ResourceProvider(uuid, replies[0].name, replies[0].generation)
  {
    if disabled then Call(None, true, 0)
    else match replies[0]
      case Response(status, name, generation) => Call(FetchedRecord(uuid, status, name, generation), false, 1)
      case _ => Call(None, Latch(disabled, replies[0]), 1)
  }

  /** `_create_resource_provider(uuid, name)` under safe_connect; on a
      conflict it fetches the record that won, under its own safe_connect. */
  function Create(disabled: bool, uuid: string, name: string, replies: seq<Outcome>): (c: Call)
    requires |replies| >= 2
    ensures disabled ==> c == Call(None, true, 0)
    ensures !disabled ==> 1 <= c.used <= 2
    ensures c.used == 2 ==> replies[0].Response? && replies[0].status == StatusConflict
    ensures c.rp.Some? ==> c.rp.value.uuid == uuid
    ensures c.disabled <==> disabled || IsConfigFault(replies[0]) || (c.used == 2 && IsConfigFault(replies[1]))
  {
    if disabled then Call(None, true, 0)
    else match replies[0]
      case Response(status, _, _) =>
        (match VerdictOf(status)
         case Created => Call(Some(ResourceProvider(uuid, name, InitialGeneration)), false, 1)
         case Conflict =>
           var f := Fetch(disabled, uuid, replies[1..]);
           Call(f.rp, f.disabled, 1 + f.used)
         case Failed => Call(None, false, 1))
      case _ => Call(None, Latch(disabled, replies[0]), 1)
  }

  /** `_ensure_resource_provider(uuid, name)`: a cache hit returns at once;
      otherwise fetch, create with `name or uuid` when nothing was fetched,
      and cache whatever record came back. */
  function Ensure(s: ClientState, uuid: string, name: Option<string>, replies: seq<Outcome>): (e: Reconciliation)
    requires |replies| >= 3
    ensures e.used <= 3
    ensures uuid in s.cache ==> e == Reconciliation(s, Some(s.cache[uuid]), 0)
    ensures s.disabled && uuid !in s.cache ==> e == Reconciliation(s, None, 0)
    ensures s.disabled ==> e.state.disabled
    ensures e.rp.None? ==> e.state.cache == s.cache
    ensures e.rp.Some? ==> e.state.cache == s.cache[uuid := e.rp.value]
    ensures uuid !in s.cache && e.rp.Some? ==> e.rp.value.uuid == uuid
    ensures CacheKeyed(s.cache) && e.rp.Some? ==> e.rp.value.uuid == uuid
    ensures CacheKeyed(s.cache) ==> CacheKeyed(e.state.cache)
  {
    if uuid in s.cache then Reconciliation(s, Some(s.cache[uuid]), 0)
    else
      var f := Fetch(s.disabled, uuid, replies);
      if f.rp.Some? then
        Reconciliation(ClientState(s.cache[uuid := f.rp.value], f.disabled), f.rp, f.used)
      else
        var c := Create(f.disabled, uuid, EffectiveName(uuid, name), replies[f.used..]);
        var cache := if c.rp.Some? then s.cache[uuid := c.rp.value] else s.cache;
        Reconciliation(ClientState(cache, c.disabled), c.rp, f.used + c.used)
  }

  /** Successive `update_resource_stats` calls, one per compute node, each
      reconciling that node from the state the previous one left. */
  function RunUpdates(s: ClientState, nodes: seq<ComputeNode>, replies: seq<Outcome>): (p: Progress)
    requires |replies| >= 3 * |nodes|
    ensures p.used <= 3 * |nodes|
    decreases |nodes|
  {
    if nodes == [] then Progress(s, 0)
    else
      var e := Ensure(s, nodes[0].uuid, nodes[0].hypervisorHostname, replies);
      var p := RunUpdates(e.state, nodes[1..], replies[e.used..]);
      Progress(p.state, e.used + p.used)
  }

  /** The report client. Its transport is modelled by `replies`, the outcomes
      the placement service will give to the client's next requests, in order. */
  class SchedulerReportClient {
    /** `_resource_providers`: reconciled records, by provider UUID. */
    var resourceProviders: map<string, ResourceProvider>
    /** `_disabled`: set once a configuration fault was seen. */
    var disabled: bool
    /** The outcomes still to come from the placement service. */
    var replies: seq<Outcome>

    function State(): ClientState
      reads this
    {
      ClientState(resourceProviders, disabled)
    }

    ghost predicate Valid()
      reads this
    {
      CacheKeyed(resourceProviders)
    }

    constructor (service: seq<Outcome>)
      ensures Valid()
      ensures State() == ClientState(map[], false)
      ensures replies == service
    {
      resourceProviders := map[];
      disabled := false;
      replies := service;
    }

    /** `get`/`post`: one request, answered by the next outcome. */
    method Request() returns (o: Outcome)
      requires |replies| >= 1
      modifies this`replies
      ensures o == old(replies[0]) && replies == old(replies[1..])
    {
      o := replies[0];
      replies := replies[1..];
    }

    /** The except clauses of safe_connect. */
    method AbsorbFault(fault: Outcome)
      requires !fault.Response?
      modifies this`disabled
      ensures disabled == Latch(old(disabled), fault)
      ensures old(disabled) ==> disabled
    {
      if IsConfigFault(fault) {
        disabled := true;
      }
    }

    /** `_get_resource_provider`, wrapped by safe_connect. */
    method GetResourceProvider(uuid: string) returns (rp: Option<ResourceProvider>)
      requires |replies| >= 1
      modifies this`disabled, this`replies
      ensures var c := Fetch(old(disabled), uuid, old(replies));
              rp == c.rp && disabled == c.disabled && replies == old(replies)[c.used..]
      ensures resourceProviders == old(resourceProviders)
    {
      if disabled {
        return None;
      }
      var reply := Request();
      if !reply.Response? {
        AbsorbFault(reply);
        return None;
      }
      rp := FetchedRecord(uuid, reply.status, reply.name, reply.generation);
    }

    /** `_create_resource_provider`, wrapped by safe_connect. */
    method CreateResourceProvider(uuid: string, name: string) returns (rp: Option<ResourceProvider>)
      requires |replies| >= 2
      modifies this`disabled, this`replies
      ensures var c := Create(old(disabled), uuid, name, old(replies));
              rp == c.rp && disabled == c.disabled && replies == old(replies)[c.used..]
      ensures resourceProviders == old(resourceProviders)
    {
      if disabled {
        return None;
      }
      var reply := Request();
      if !reply.Response? {
        AbsorbFault(reply);
        return None;
      }
      match VerdictOf(reply.status)
      case Created =>
        rp := Some(ResourceProvider(uuid, name, InitialGeneration));
      case Conflict =>
        rp := GetResourceProvider(uuid);
      case Failed =>
        rp := None;
    }

    /** `_ensure_resource_provider`. */
    method EnsureResourceProvider(uuid: string, name: Option<string>) returns (rp: Option<ResourceProvider>)
      requires Valid() && |replies| >= 3
      modifies this
      ensures Valid()
      ensures var e := Ensure(old(State()), uuid, name, old(replies));
              State() == e.state && rp == e.rp && replies == old(replies)[e.used..]
      ensures rp.Some? ==> rp.value.uuid == uuid
    {
      if uuid in resourceProviders {
        return Some(resourceProviders[uuid]);
      }
      rp := GetResourceProvider(uuid);
      if rp.None? {
        rp := CreateResourceProvider(uuid, EffectiveName(uuid, name));
        if rp.None? {
          return;
        }
      }
      resourceProviders := resourceProviders[uuid := rp.value];
    }

    /** `update_resource_stats(compute_node)`: reconcile the node's provider;
        the result is dropped. */
    method UpdateResourceStats(node: ComputeNode)
      requires Valid() && |replies| >= 3
      modifies this
      ensures Valid()
      ensures var e := Ensure(old(State()), node.uuid, node.hypervisorHostname, old(replies));
              State() == e.state && replies == old(replies)[e.used..]
    {
      var _ := EnsureResourceProvider(node.uuid, node.hypervisorHostname);
    }
  }
}
