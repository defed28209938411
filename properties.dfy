/** What the reconciliation engine promises, stated over the functions of
    module Report: per status path of each wrapped call, for a pair of
    reconciliations, and for any run of `update_resource_stats` calls. */
module ReportProperties {
  import opened Placement
  import opened Report

  // ----- Circuit breaker -----

  /** A configuration fault on any wrapped call disables the client and the
      call returns None; the fault is the only outcome it consumes. */
  lemma ConfigFaultDisables(uuid: string, name: string, fault: Outcome, rest: seq<Outcome>)
    requires IsConfigFault(fault) && |rest| >= 1
    ensures Fetch(false, uuid, [fault] + rest) == Call(None, true, 1)
    ensures Create(false, uuid, name, [fault] + rest) == Call(None, true, 1)
  {
  }

  /** A connection failure makes the call return None and leaves the client enabled. */
  lemma ConnectFailureIsTransient(uuid: string, name: string, rest: seq<Outcome>)
    requires |rest| >= 1
    ensures Fetch(false, uuid, [ConnectFailure] + rest) == Call(None, false, 1)
    ensures Create(false, uuid, name, [ConnectFailure] + rest) == Call(None, false, 1)
  {
  }

  /** A fault on the initial fetch of a reconciliation: a configuration fault
      disables the client, so the create that follows makes no request; a
      connection failure lets the create go ahead. Neither caches anything. */
  lemma FaultOnFetch(s: ClientState, uuid: string, name: Option<string>, fault: Outcome, rest: seq<Outcome>)
    requires !s.disabled && uuid !in s.cache && !fault.Response? && |rest| >= 2
    ensures IsConfigFault(fault) ==>
      Ensure(s, uuid, name, [fault] + rest) == Reconciliation(ClientState(s.cache, true), None, 1)
    ensures fault.ConnectFailure? ==>
      Ensure(s, uuid, name, [fault] + rest).used == 1 + Create(false, uuid, EffectiveName(uuid, name), rest).used
  {
  }

  /** Once disabled, any run of updates leaves the state exactly as it was
      and makes no request at all. */
  lemma {:induction false} CircuitPermanence(s: ClientState, nodes: seq<ComputeNode>, replies: seq<Outcome>)
    requires s.disabled && |replies| >= 3 * |nodes|
    ensures RunUpdates(s, nodes, replies) == Progress(s, 0)
    decreases |nodes|
  {
    if nodes != [] {
      var e := Ensure(s, nodes[0].uuid, nodes[0].hypervisorHostname, replies);
      assert e.state == s && e.used == 0;
      CircuitPermanence(s, nodes[1..], replies);
    }
  }

  /** Over any run of updates the latch never goes back to false and no
      cached record is dropped or replaced. */
  lemma {:induction false} RunIsMonotone(s: ClientState, nodes: seq<ComputeNode>, replies: seq<Outcome>)
    requires |replies| >= 3 * |nodes|
    ensures var p := RunUpdates(s, nodes, replies);
            (s.disabled ==> p.state.disabled) && CacheGrows(s.cache, p.state.cache)
    decreases |nodes|
  {
    if nodes != [] {
      var e := Ensure(s, nodes[0].uuid, nodes[0].hypervisorHostname, replies);
      RunIsMonotone(e.state, nodes[1..], replies[e.used..]);
    }
  }

  // ----- Remote directory accessor -----

  /** 200: a record with the requested UUID and the name and generation of the body. */
  lemma FetchFound(uuid: string, name: string, generation: int, rest: seq<Outcome>)
    ensures Fetch(false, uuid, [Response(StatusOk, name, generation)] + rest)
              == Call(Some(ResourceProvider(uuid, name, generation)), false, 1)
  {
  }

  /** 404, or any status but 200: None, with the client left enabled. */
  lemma FetchNotFound(uuid: string, status: int, name: string, generation: int, rest: seq<Outcome>)
    requires status != StatusOk
    ensures Fetch(false, uuid, [Response(status, name, generation)] + rest) == Call(None, false, 1)
  {
  }

  /** 201: the record as the client described it, with generation 1,
      whatever the response body says. */
  lemma CreateIgnoresBody(uuid: string, name: string, bodyName: string, bodyGeneration: int, rest: seq<Outcome>)
    requires |rest| >= 1
    ensures Create(false, uuid, name, [Response(StatusCreated, bodyName, bodyGeneration)] + rest)
              == Call(Some(ResourceProvider(uuid, name, InitialGeneration)), false, 1)
  {
  }

  /** 409: exactly what a fetch of the same UUID right afterwards returns,
      None included, with that fetch's effect on the latch. */
  lemma CreateConflictRefetches(uuid: string, name: string, bodyName: string, bodyGeneration: int, rest: seq<Outcome>)
    requires |rest| >= 1
    ensures var f := Fetch(false, uuid, rest);
            Create(false, uuid, name, [Response(StatusConflict, bodyName, bodyGeneration)] + rest)
              == Call(f.rp, f.disabled, 1 + f.used)
  {
  }

  /** Any status but 201 and 409: None, with the client left enabled. */
  lemma CreateFailed(uuid: string, name: string, status: int, bodyName: string, bodyGeneration: int, rest: seq<Outcome>)
    requires status != StatusCreated && status != StatusConflict && |rest| >= 1
    ensures Create(false, uuid, name, [Response(status, bodyName, bodyGeneration)] + rest) == Call(None, false, 1)
  {
  }

  // ----- Reconciliation cache -----

  /** A second reconciliation of a UUID the first one resolved returns the
      same record, makes no request and changes nothing, whatever name it is
      given and whatever the service would answer. */
  lemma EnsureIsIdempotent(s: ClientState, uuid: string, name: Option<string>, name': Option<string>,
                           replies: seq<Outcome>, replies': seq<Outcome>)
    requires |replies| >= 3 && |replies'| >= 3
    requires Ensure(s, uuid, name, replies).rp.Some?
    ensures var e := Ensure(s, uuid, name, replies);
            Ensure(e.state, uuid, name', replies') == Reconciliation(e.state, e.rp, 0)
  {
  }

  /** A record found by the fetch is cached and returned; no create is attempted. */
  lemma EnsureAdoptsFetched(s: ClientState, uuid: string, name: Option<string>, n: string, generation: int,
                            rest: seq<Outcome>)
    requires !s.disabled && uuid !in s.cache && |rest| >= 2
    ensures var rp := ResourceProvider(uuid, n, generation);
            Ensure(s, uuid, name, [Response(StatusOk, n, generation)] + rest)
              == Reconciliation(ClientState(s.cache[uuid := rp], false), Some(rp), 1)
  {
  }

  /** When the fetch returns None without disabling the client (a 404, any
      other status but 200, or a connection failure) and the create gets 201,
      the cached record has the UUID, the effective name (`name or uuid`) and
      generation 1. */
  lemma EnsureCreates(s: ClientState, uuid: string, name: Option<string>, first: Outcome,
                      created: Outcome, rest: seq<Outcome>)
    requires !s.disabled && uuid !in s.cache && |rest| >= 1
    requires Fetch(false, uuid, [first]) == Call(None, false, 1)
    requires created.Response? && created.status == StatusCreated
    ensures var rp := ResourceProvider(uuid, EffectiveName(uuid, name), InitialGeneration);
            Ensure(s, uuid, name, [first, created] + rest)
              == Reconciliation(ClientState(s.cache[uuid := rp], false), Some(rp), 2)
  {
  }

  /** When the fetch returns None without disabling the client and the create
      meets a conflict, reconciliation returns whatever the fetch that follows
      returns, and caches it if it is a record. */
  lemma EnsureConflictAdoptsWinner(s: ClientState, uuid: string, name: Option<string>, first: Outcome,
                                   conflict: Outcome, last: Outcome)
    requires !s.disabled && uuid !in s.cache
    requires Fetch(false, uuid, [first]) == Call(None, false, 1)
    requires conflict.Response? && conflict.status == StatusConflict
    ensures var f := Fetch(false, uuid, [last]);
            var e := Ensure(s, uuid, name, [first, conflict, last]);
            e.rp == f.rp && e.used == 3 && e.state.disabled == f.disabled &&
            e.state.cache == (if f.rp.Some? then s.cache[uuid := f.rp.value] else s.cache)
  {
  }

  /** A miss whose fetch and create both return None returns None, caches
      nothing, and leaves the latch as the create left it, whatever the
      outcomes were. */
  lemma EnsureMissWithoutRecord(s: ClientState, uuid: string, name: Option<string>, replies: seq<Outcome>)
    requires uuid !in s.cache && |replies| >= 3
    ensures var f := Fetch(s.disabled, uuid, replies);
            var c := Create(f.disabled, uuid, EffectiveName(uuid, name), replies[f.used..]);
            f.rp.None? && c.rp.None? ==>
              Ensure(s, uuid, name, replies) == Reconciliation(ClientState(s.cache, c.disabled), None, f.used + c.used)
  {
  }

  /** Two connection failures leave the state as it was; a later
      reconciliation that reaches the service still succeeds. */
  lemma TransientTolerance(s: ClientState, uuid: string, name: Option<string>, n: string, generation: int,
                           later: seq<Outcome>, rest: seq<Outcome>)
    requires !s.disabled && uuid !in s.cache && |rest| >= 1 && |later| >= 2
    ensures var e := Ensure(s, uuid, name, [ConnectFailure, ConnectFailure] + rest);
            e.state == s && e.rp == None &&
            Ensure(e.state, uuid, name, [Response(StatusOk, n, generation)] + later).rp
              == Some(ResourceProvider(uuid, n, generation))
  {
  }

  /** Over any run of updates every cached record stays stored under its own UUID. */
  lemma {:induction false} RunKeepsCacheKeyed(s: ClientState, nodes: seq<ComputeNode>, replies: seq<Outcome>)
    requires CacheKeyed(s.cache) && |replies| >= 3 * |nodes|
    ensures CacheKeyed(RunUpdates(s, nodes, replies).state.cache)
    decreases |nodes|
  {
    if nodes != [] {
      var e := Ensure(s, nodes[0].uuid, nodes[0].hypervisorHostname, replies);
      RunKeepsCacheKeyed(e.state, nodes[1..], replies[e.used..]);
    }
  }

  /** Updates for nodes whose providers are all cached make no request and change nothing. */
  lemma {:induction false} WarmCacheIsQuiet(s: ClientState, nodes: seq<ComputeNode>, replies: seq<Outcome>)
    requires forall i :: 0 <= i < |nodes| ==> nodes[i].uuid in s.cache
    requires |replies| >= 3 * |nodes|
    ensures RunUpdates(s, nodes, replies) == Progress(s, 0)
    decreases |nodes|
  {
    if nodes != [] {
      assert nodes[0].uuid in s.cache;
      WarmCacheIsQuiet(s, nodes[1..], replies);
    }
  }

  /** A run that reconciles the same node twice makes no request the second time. */
  lemma {:induction false} RepeatedUpdateIsQuiet(s: ClientState, node: ComputeNode, replies: seq<Outcome>)
    requires |replies| >= 6
    requires Ensure(s, node.uuid, node.hypervisorHostname, replies).rp.Some?
    ensures var e := Ensure(s, node.uuid, node.hypervisorHostname, replies);
            RunUpdates(s, [node, node], replies) == Progress(e.state, e.used)
  {
    var e := Ensure(s, node.uuid, node.hypervisorHostname, replies);
    assert [node, node][1..] == [node];
    assert [node][1..] == [];
    calc {
      RunUpdates(s, [node, node], replies);
      Progress(RunUpdates(e.state, [node], replies[e.used..]).state,
               e.used + RunUpdates(e.state, [node], replies[e.used..]).used);
      Progress(e.state, e.used);
    }
  }

  // ----- Scenarios -----

  /** Fetch 404, create 201: the new record with generation 1 is cached. */
  lemma ScenarioCreate(s: ClientState, last: Outcome)
    requires !s.disabled && "rp-1" !in s.cache
    ensures var rp := ResourceProvider("rp-1", "host-a", 1);
            Ensure(s, "rp-1", Some("host-a"), [Response(404, "", 0), Response(201, "host-a", 0), last])
              == Reconciliation(ClientState(s.cache["rp-1" := rp], false), Some(rp), 2)
  {
    EnsureCreates(s, "rp-1", Some("host-a"), Response(404, "", 0), Response(201, "host-a", 0), [last]);
  }

  /** Fetch 200: the fetched record is cached, no create. */
  lemma ScenarioFound(s: ClientState, rest: seq<Outcome>)
    requires !s.disabled && "rp-2" !in s.cache && |rest| >= 2
    ensures var rp := ResourceProvider("rp-2", "host-b", 4);
            Ensure(s, "rp-2", None, [Response(200, "host-b", 4)] + rest)
              == Reconciliation(ClientState(s.cache["rp-2" := rp], false), Some(rp), 1)
  {
  }

  /** Fetch 404, create 409, fetch 200: the record that won, not a generation-1 one. */
  lemma ScenarioConflict(s: ClientState)
    requires !s.disabled && "rp-3" !in s.cache
    ensures Ensure(s, "rp-3", Some("host-c"),
                   [Response(404, "", 0), Response(409, "", 0), Response(200, "host-c-other", 2)]).rp
              == Some(ResourceProvider("rp-3", "host-c-other", 2))
  {
    EnsureConflictAdoptsWinner(s, "rp-3", Some("host-c"), Response(404, "", 0), Response(409, "", 0),
                               Response(200, "host-c-other", 2));
  }
}
