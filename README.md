# Scheduler report client: placement reconciliation

A model of the reconciliation engine of nova's `SchedulerReportClient`
(`nova/scheduler/client/report.py`). The engine keeps the resource provider
record of a compute node in step with the placement service:

- **Circuit breaker.** `safe_connect` wraps every call that talks to placement.
  An already-disabled client makes no request and returns `None`.
  `EndpointNotFound` and `MissingAuthPlugin` disable the client for good.
  `ConnectFailure` is absorbed and leaves the client enabled.
- **Remote directory accessor.** `_get_resource_provider` maps 200 to a record
  and every other status to `None`. `_create_resource_provider` maps 201 to a
  record with generation 1. On 409 it re-fetches, and every other status gives `None`.
  The status codes carry their meaning from RFC 9110: section 15.3.1 (200 OK),
  15.3.2 (201 Created), 15.5.5 (404 Not Found) and 15.5.10 (409 Conflict).
- **Reconciliation cache.** `_ensure_resource_provider` is a get-or-create over
  `_resource_providers`, keyed by UUID. It is called from `update_resource_stats`.

Files:

- `placement.dfy` (module `Placement`) holds the records, the outcome of one
  request, and the pure status-code case analysis. It also holds `EffectiveName`,
  which models `name or uuid`.
- `report.dfy` (module `Report`) gives the meaning of each operation on values:
  `Fetch`, `Create`, `Ensure`, and `RunUpdates` for a sequence of
  `update_resource_stats` calls. It also holds the class `SchedulerReportClient`.
  The class updates `resourceProviders` and `disabled` in place, and every
  method is proved against the matching function.
- `properties.dfy` (module `ReportProperties`) holds the lemmas: one per status
  path, idempotence, three concrete scenarios (a create on a miss, a record
  found by the fetch, and a conflict won by another client), and inductive
  lemmas over any run of updates.

The network is an input. The field `replies` of the client holds the outcomes the
placement service will give, in order. Each request (`get` or `post`) consumes
one outcome. "No request was made" is stated as "nothing was consumed".

## Model

| member | source | states |
|---|---|---|
| `Placement.FetchedRecord` | nova/scheduler/client/report.py:98-117 | a GET yields a record iff the status is 200; that record has the requested UUID and the body's name and generation; 404 and any other status yield none |
| `Placement.VerdictOf` | nova/scheduler/client/report.py:135-164 | a POST status reads as Created exactly for 201, Conflict exactly for 409, and Failed for everything else |
| `Placement.EffectiveName` | nova/scheduler/client/report.py:177-187 | a present, non-empty name is used as given; a missing or empty name falls back to the UUID |
| `Report.Fetch` | nova/scheduler/client/report.py:88-117 | a disabled client makes no request and returns None; otherwise it consumes one outcome; the latch ends set iff it was set or that outcome is a configuration fault; a record comes back iff the outcome is a 200 response, and it carries the requested UUID and the body's fields |
| `Report.Create` | nova/scheduler/client/report.py:119-164 | a disabled client makes no request; otherwise it consumes one outcome, or two when the first is a 409; any record returned has the requested UUID; the latch ends set iff it was set or a consumed outcome is a configuration fault |
| `Report.Ensure` | nova/scheduler/client/report.py:166-192 | a cache hit returns the cached record, consumes nothing and changes nothing; a disabled client with a miss changes nothing; a failure leaves the cache unchanged; a success stores the record under the UUID and touches no other key; when every cached record is stored under its own UUID, any record returned, cached or not, carries the requested UUID; the latch never goes back to false; at most three outcomes are consumed; "every record is stored under its own UUID" is preserved |
| `Report.RunUpdates` | nova/scheduler/client/report.py:194-201 | a run of n `update_resource_stats` calls consumes at most 3n outcomes |
| `Report.SchedulerReportClient.constructor` | nova/scheduler/client/report.py:62-72 | a new client has an empty cache and is enabled |
| `Report.SchedulerReportClient.Request` | nova/scheduler/client/report.py:74-86 | a request returns the next outcome and consumes exactly it |
| `Report.SchedulerReportClient.AbsorbFault` | nova/scheduler/client/report.py:39-52 | EndpointNotFound and MissingAuthPlugin set `disabled`; ConnectFailure leaves it; it is never cleared |
| `Report.SchedulerReportClient.GetResourceProvider` | nova/scheduler/client/report.py:88-117 | returns and leaves the latch and the outcomes as `Fetch` says, and leaves the cache unchanged |
| `Report.SchedulerReportClient.CreateResourceProvider` | nova/scheduler/client/report.py:119-164 | returns and leaves the latch and the outcomes as `Create` says, and leaves the cache unchanged |
| `Report.SchedulerReportClient.EnsureResourceProvider` | nova/scheduler/client/report.py:166-192 | the new cache, the latch, the result and the consumed outcomes are those `Ensure` gives for the old state; every cached record stays stored under its own UUID; any record returned carries the requested UUID |
| `Report.SchedulerReportClient.UpdateResourceStats` | nova/scheduler/client/report.py:194-201 | reconciles the node's UUID with its hypervisor hostname as the name, and changes the state as `Ensure` says |
| `ReportProperties.ConfigFaultDisables` | nova/scheduler/client/report.py:39-49 | EndpointNotFound or MissingAuthPlugin on a fetch or a create disables the client and the call returns None |
| `ReportProperties.ConnectFailureIsTransient` | nova/scheduler/client/report.py:50-52 | ConnectFailure on a fetch or a create returns None and leaves the client enabled |
| `ReportProperties.FaultOnFetch` | nova/scheduler/client/report.py:185-190 | a configuration fault on the fetch makes the following create a no-op, so nothing more is consumed or cached; a connection failure on the fetch lets the create go ahead |
| `ReportProperties.CircuitPermanence` | nova/scheduler/client/report.py:35-37 | once disabled, any run of updates leaves the whole state unchanged and makes no request |
| `ReportProperties.RunIsMonotone` | nova/scheduler/client/report.py:182-192 | over any run of updates the latch is never reset and no cached record is dropped or replaced |
| `ReportProperties.FetchFound` | nova/scheduler/client/report.py:99-105 | a 200 gives a record with the requested UUID and the body's name and generation |
| `ReportProperties.FetchNotFound` | nova/scheduler/client/report.py:106-117 | 404 or any other status but 200 gives None and leaves the client enabled |
| `ReportProperties.CreateIgnoresBody` | nova/scheduler/client/report.py:135-144 | a 201 gives the requested UUID and name with generation 1, whatever the body says |
| `ReportProperties.CreateConflictRefetches` | nova/scheduler/client/report.py:145-154 | a 409 returns exactly what a fetch of the same UUID right after it returns, None included, with that fetch's effect on the latch |
| `ReportProperties.CreateFailed` | nova/scheduler/client/report.py:155-164 | any status but 201 and 409 gives None and leaves the client enabled |
| `ReportProperties.EnsureIsIdempotent` | nova/scheduler/client/report.py:182-183 | after a successful reconciliation, a second one for the same UUID returns the same record, consumes nothing and changes nothing |
| `ReportProperties.EnsureAdoptsFetched` | nova/scheduler/client/report.py:185-192 | a record found by the fetch is cached and returned, and no create is attempted |
| `ReportProperties.EnsureCreates` | nova/scheduler/client/report.py:185-192 | when the fetch returns None without disabling the client (404, any other non-200 status, or a connection failure) and the create gets 201, the record with the UUID, `name or uuid` and generation 1 is cached and returned |
| `ReportProperties.EnsureConflictAdoptsWinner` | nova/scheduler/client/report.py:145-154 | after a fetch that returns None without disabling the client (including a connection failure) and a 409, reconciliation returns whatever the re-fetch returns, caches it if it is a record, and ends with the re-fetch's latch |
| `ReportProperties.EnsureMissWithoutRecord` | nova/scheduler/client/report.py:172-190 | for any outcomes, a miss whose fetch and create both return None returns None, caches nothing, and leaves the latch as the create left it |
| `ReportProperties.TransientTolerance` | nova/scheduler/client/report.py:50-52 | connection failures on a reconciliation leave the state as it was, and a later reconciliation that reaches the service succeeds |
| `ReportProperties.RunKeepsCacheKeyed` | nova/scheduler/client/report.py:191 | over any run of updates every cached record stays stored under its own UUID |
| `ReportProperties.WarmCacheIsQuiet` | nova/scheduler/client/report.py:182-183 | a run of updates for nodes whose providers are all cached makes no request and changes nothing |
| `ReportProperties.RepeatedUpdateIsQuiet` | nova/scheduler/client/report.py:194-201 | two successive updates of the same node, the first successful, consume only what the first one did |
| `ReportProperties.ScenarioCreate` | nova/scheduler/client/report.py:185-192 | fetch 404 then create 201 for "rp-1"/"host-a" caches the record ("rp-1", "host-a", 1) |
| `ReportProperties.ScenarioFound` | nova/scheduler/client/report.py:185-192 | fetch 200 with ("host-b", 4) for "rp-2" caches that record after one request |
| `ReportProperties.ScenarioConflict` | nova/scheduler/client/report.py:145-154 | fetch 404, create 409, then fetch 200 with ("host-c-other", 2) returns that record, not a generation-1 one |

## Left out

- Keystone auth-plugin loading and construction of the session (lines 67-69) are foreign library calls. The constructor takes the outcomes the session will produce instead.
- The URLs, the JSON payload and `ks_filter` endpoint selection (lines 59-60, 74-86) are not modelled. A request is only "the next outcome".
- JSON decoding is not modelled. A response carries its `name` and `generation` fields directly. A 200 body without those keys, which raises `KeyError` in the source, is not modelled.
- Exceptions other than the three keystone faults propagate through `safe_connect` unchanged. They are not modelled.
- Logging and message formatting have no effect on state and are not modelled.
- `compute_node.save()` (line 199) persists an external object. It is not part of this model.
- Concurrent callers and atomicity of the `_disabled` flag are not modelled. A race between processes is seen only as a 409 outcome.
- The transport is a finite sequence of outcomes, and each call below requires as many pending outcomes as it can consume at most. This is a requirement on the modelled transport, not on the client's callers:
- Report.Fetch and Report.SchedulerReportClient.GetResourceProvider: at least one outcome.
- Report.Create and Report.SchedulerReportClient.CreateResourceProvider: at least two outcomes, for the request and the re-fetch after a 409.
- Report.Ensure, Report.SchedulerReportClient.EnsureResourceProvider and Report.SchedulerReportClient.UpdateResourceStats: at least three outcomes.
- Report.RunUpdates: at least three outcomes per node.
