# Agent platform core in Dafny

This project models the messaging and membership core of an agent platform
written in TypeScript, and proves properties of that model. Agents exchange
JSON-RPC 2.0 envelopes through a hub, register with a registry, and are kept
in a declared state by a controller.

- `types.dfy` (`Types`): the shared data model. It covers agent cards,
  capabilities and endpoints, health values, JSON values, JSON-RPC payloads
  and the message envelope.
- `strings.dfy` (`Strings`): the string operations the core relies on.
  They are ASCII `toLowerCase`, `includes`, `split` and number-to-text.
- `ordered_maps.dfy` (`OrderedMaps`): a JavaScript `Map`. It is a dictionary
  plus the order in which keys were first inserted.
- `protocol.dfy` (`Protocol`): the correlation engine of one agent, as the
  class `A2AProtocol`.
  - Outbound requests wait in a pending table until a matching response or
    their timer settles them.
  - Stream frames go to registered callbacks.
  - Every send appends one envelope to an outbox.
- `agent.dfy` (`Agents`): the agent runtime, as the class `BaseAgent`.
  - It holds the capability and handler tables.
  - It answers every inbound request with exactly one response: the result,
    -32601 or -32603.
  - It runs the case-insensitive skill lookup and the start/stop sequence.
- `registry.dfy` (`Registry`): the registry, as the class `AgentRegistry`.
  - It keeps an ordered membership table, a cluster table and one health
    timer per agent.
  - It offers filter-based discovery, the health tick, the stale sweep and
    statistics.
- `health_checker.dfy` (`HealthChecks`): endpoint health checking and the
  table of periodic checks, as the class `HealthChecker`.
- `controller.dfy` (`Controller`): the reconciliation controller, as the class
  `AgentController`, over an object store keyed by name.
  - Status writes are merges.
  - Reconciliation validates the spec and moves Pending to Running or Failed.
  - The monitoring pass writes health only when it changes.
- `hub.dfy` (`Hub`): the hub.
  - It takes a connection's agent id from the URL path.
  - It forwards messages to open connections or bounces them with -32001.
  - It dispatches registry requests.

Code that changes state is modelled as a class with the source's fields and
`modifies` clauses. Each such method is proved against a pure function of
the old state: `Route`, `Replies`, `Discover`, `Stats`, `SweepTable`,
`Reconciled`, `Monitored`, `AgentHealthy`, `Answer` and `Decode`. Properties
that relate several calls are lemmas about those functions.

Conventions:
- Time is an integer number of milliseconds passed in by the caller. Each
  firing of `setInterval`/`setTimeout` is an explicit method: `Expire`,
  `HealthTick`, `StaleSweep`, `Tick`, `MonitorTick`.
- Random ids are parameters, with the precondition that a new correlation id
  is not pending.
- Request handlers of added capabilities, and the endpoint probes, are opaque
  parameters. The probe the source ships, which reports every known endpoint
  kind healthy, is `HealthChecks.StubProbe`.

Where the written specification and the code disagree, the model follows the
code:
- `closeStream` only sends a `stream/close` request. It does not remove the
  local stream callback.
- The registry has no shutdown, so its timers are never all cancelled.
- The controller's `stop()` does not cancel its own 30-second monitoring
  interval: `startHealthMonitoring` discards the handle, and `stop()` only
  aborts the watch and empties the health checker's table, on which the
  controller schedules nothing. So `MonitorTick` keeps firing after `stop()`.
- Re-registration does not keep the stored `created` or `health`.
- A status merge replaces the `conditions` list; it does not append to it.
- A capability whose id equals a built-in method overwrites that handler.
- The health tick and the stale sweep both restamp `updated`. So an agent
  marked `unhealthy` for silence, or marked `unknown` by the sweep, is marked
  `healthy` again by its next tick within five minutes (see
  `Registry.UnhealthyFlapsBack` and `Registry.SweepUndoneByTick`).
- `start` awaits the registration request before it attaches the message
  listener. The registration reply therefore arrives while nobody listens:
  `BaseAgent.Receive` drops it, and only the timeout (`Expire`) can settle the
  registration before `FinishStart`.

## Model

| member | source | states |
|---|---|---|
| Types.ThrownMessage | src/agents/base-agent.ts:171 | a thrown Error gives its message; anything else gives "Internal error" |
| Strings.Lower | src/registry/agent-registry.ts:69 | the model's ASCII lower-casing keeps the length, leaves no letter `A`-`Z`, and changes a character only by mapping `A`-`Z` to its lower-case letter |
| Strings.Split | src/server/index.ts:30 | `split` always yields at least one piece |
| Strings.JoinSplit | src/server/index.ts:30 | joining the pieces of a split gives back the string, and no piece contains the separator |
| Strings.SplitConcat | src/server/index.ts:30 | splitting `a + sep + b` is splitting `a` followed by splitting `b` |
| Strings.ParseNatText | src/communication/protocol.ts:81 | the decimal text of a number reads back as that number |
| Strings.IntTextInjective | src/communication/protocol.ts:81 | distinct numeric ids give distinct `toString()` texts, so correlation ids do not collide |
| OrderedMaps.PutValues | src/registry/agent-registry.ts:26 | `map.set` on a known key replaces its value in place; on a new key it appends the value at the end of the iteration order |
| OrderedMaps.WithoutKeepsOrder | src/registry/agent-registry.ts:47 | `map.delete` keeps the remaining keys in their old relative order |
| Protocol.Settle | src/communication/protocol.ts:25-31 | a response with `error` rejects with an A2AError carrying its code, message and data; otherwise the caller resolves with `result` and a stream creator with its stream id |
| Protocol.Route | src/communication/protocol.ts:134-151 | a response settles iff its correlation id is present, non-empty and pending; a stream frame reaches a callback iff its stream id is registered; requests and notifications go to the owner; everything else is dropped |
| Protocol.RequestEnvelope | src/communication/protocol.ts:15-40 | a request envelope's correlation id equals its payload id, and it carries the method and params |
| Protocol.NotificationEnvelope | src/communication/protocol.ts:52-66 | a notification has neither a payload id nor a correlation id |
| Protocol.ResponseEnvelope | src/communication/protocol.ts:68-83 | a response carries the error iff one is given, otherwise the result, never both; its correlation id is the id's text |
| Protocol.StreamEnvelope | src/communication/protocol.ts:96-105 | a stream frame carries the stream id and the data, and has no correlation id |
| Protocol.ResponseSettlesRequest | src/communication/protocol.ts:134-140 | the response `sendResponse` builds for a pending id settles exactly that request with the peer's result or error |
| Protocol.SecondResponseDropped | src/communication/protocol.ts:135-140 | once a response has settled a request, a second response with the same correlation id is dropped |
| Protocol.A2AProtocol.constructor | src/communication/protocol.ts:6-12 | both tables and the outbox start empty |
| Protocol.A2AProtocol.Await | src/communication/protocol.ts:24-40 | one pending entry for the fresh id and one request envelope |
| Protocol.A2AProtocol.SendRequest | src/communication/protocol.ts:15-50 | exactly one new pending entry and exactly one request envelope whose correlation id is the payload id; the stream table is unchanged |
| Protocol.A2AProtocol.Expire | src/communication/protocol.ts:42-48 | the timer removes and rejects with "Request timeout" a request still pending, and is a no-op for a settled one |
| Protocol.A2AProtocol.SendNotification | src/communication/protocol.ts:52-66 | one notification envelope; the pending and stream tables are unchanged |
| Protocol.A2AProtocol.SendResponse | src/communication/protocol.ts:68-83 | one response envelope; the tables are unchanged |
| Protocol.A2AProtocol.CreateStream | src/communication/protocol.ts:86-94 | a `stream/create` request whose waiter receives the stream id only when it resolves |
| Protocol.A2AProtocol.SendStreamData | src/communication/protocol.ts:96-105 | one stream envelope; the tables are unchanged |
| Protocol.A2AProtocol.CloseStream | src/communication/protocol.ts:107-109 | a `stream/close` request is sent and the stream table is left unchanged |
| Protocol.A2AProtocol.OnStream | src/communication/protocol.ts:111-113 | the last registration for a stream id wins |
| Protocol.A2AProtocol.DiscoverAgents | src/communication/protocol.ts:116-121 | an `agent/discover` request to the registry carrying the given filters |
| Protocol.A2AProtocol.GetAgentCapabilities | src/communication/protocol.ts:123-125 | an `agent/capabilities` request without params |
| Protocol.A2AProtocol.QuerySkill | src/communication/protocol.ts:127-131 | an `agent/query-skill` request carrying the skill name |
| Protocol.A2AProtocol.HandleMessage | src/communication/protocol.ts:134-151 | a settling response removes its entry and logs its settlement; nothing else changes a table, and nothing is sent |
| Agents.DefaultHandlers | src/agents/base-agent.ts:122-152 | exactly the four built-in methods are installed |
| Agents.FindSkill | src/agents/base-agent.ts:144-145 | the first capability whose name equals the skill ignoring case, or none when no name matches |
| Agents.QuerySkill | src/agents/base-agent.ts:142-151 | `available` is true iff some capability's name equals the skill ignoring case, and then the reported capability is the first such one in table order, as `find` returns it; a missing skill is unavailable; a non-string skill throws only when there is a capability to test |
| Agents.Run | src/agents/base-agent.ts:124-151 | an added capability's handler gives its own outcome; `agent/status` returns the card; the built-ins other than the skill query never throw |
| Agents.Answer | src/agents/base-agent.ts:154-177 | -32601 with `{method}` iff no handler takes the method; otherwise the handler's result, or -32603 with the thrown message |
| Agents.OutcomeEnvelope | src/agents/base-agent.ts:168 | the response carries the outcome and the request's id as correlation id |
| Agents.Replies | src/agents/base-agent.ts:154-177 | a request with an id gets exactly one response, to the requester, carrying the request's id and the answer |
| Agents.UnknownMethodRejectsCaller | src/agents/base-agent.ts:156-165 | a request for an unhandled method comes back as a rejection with -32601 and the method name |
| Agents.HandledRequestResolvesCaller | src/agents/base-agent.ts:167-168 | a request whose handler returns resolves the caller with exactly that value |
| Agents.FindSkillIgnoresCase | src/agents/base-agent.ts:144-145 | the lookup gives the same answer for a skill name in any capitalisation |
| Agents.WithoutCapability | src/agents/base-agent.ts:59 | the filtered list holds exactly the capabilities with another id |
| Agents.WithoutCapabilityAppend | src/agents/base-agent.ts:59 | filtering distributes over concatenation, so the surviving capabilities keep their relative order |
| Agents.WithoutCapabilityCounts | src/agents/base-agent.ts:59 | a capability with another id keeps its multiplicity; every entry with the id goes |
| Agents.WithoutCapabilityKeepsOthers | src/agents/base-agent.ts:59 | filtering out an id nobody has keeps the list as it was, order included |
| Agents.Added | src/agents/base-agent.ts:50-54 | both maps map the id to the new capability and handler, overwriting any earlier entry, and the card lists the capability once more |
| Agents.AddedAllListed | src/agents/base-agent.ts:50-54 | after the setup, the card lists the set-up capabilities after its earlier ones, in setup order |
| Agents.AddedAllHandler | src/agents/base-agent.ts:50-54 | after the setup, an id's handler is that of its last setup entry, even over a built-in |
| Agents.AddedAllHandlerKeys | src/agents/base-agent.ts:50-54 | the setup adds handlers under the set-up ids and no others |
| Agents.BaseAgent.constructor | src/agents/base-agent.ts:12-20 | the protocol engine is created for the card's id with the four built-in handlers |
| Agents.BaseAgent.AddCapability | src/agents/base-agent.ts:50-54 | the tables become `Added` of the old tables |
| Agents.BaseAgent.RemoveCapability | src/agents/base-agent.ts:56-60 | the id leaves both maps (a built-in included), and the card's list becomes `WithoutCapability` of the old list: exactly the capabilities with another id, in order and with their multiplicities |
| Agents.BaseAgent.UpdateHealth | src/agents/base-agent.ts:97-101 | only `health` and `updated` change, and `health_changed` is emitted |
| Agents.BaseAgent.GetStatus | src/agents/base-agent.ts:103-105 | returns the card |
| Agents.BaseAgent.HandleRequest | src/agents/base-agent.ts:154-177 | the outbox grows by exactly `Replies`; no table changes |
| Agents.BaseAgent.Receive | src/agents/base-agent.ts:36-38 | before the listener is attached a message is lost; after, it is routed and requests are answered |
| Agents.BaseAgent.Start | src/agents/base-agent.ts:28-33 | the capabilities are set up first, then the card is sent in an `agent/register` request that is awaited |
| Agents.BaseAgent.FinishStart | src/agents/base-agent.ts:35-41 | the listener is attached only after the registration has settled, and `started` is emitted |
| Agents.BaseAgent.Stop | src/agents/base-agent.ts:43-45 | an `agent/unregister` request for the agent's id is sent and awaited |
| Agents.BaseAgent.FinishStop | src/agents/base-agent.ts:45-47 | `stopped` is emitted after the unregistration has settled |
| Registry.Discover | src/registry/agent-registry.ts:61-105 | the listed agents are exactly, in table order, those meeting every non-empty filter that are healthy or degraded; total and per_page count them and page is 1 |
| Registry.DiscoverMembership | src/registry/agent-registry.ts:62-97 | an agent is listed iff it is stored and meets the criterion; an empty request lists every healthy or degraded agent |
| Registry.Stats | src/registry/agent-registry.ts:209-223 | each health count is the number of agents with that health, the capability total is `CapabilityTotal`, the agent and cluster totals are the table sizes, and the three health counts plus the unknown ones add up to the agent total |
| Registry.CapabilityTotalAppend | src/registry/agent-registry.ts:221 | the capability total adds up over any split of the table, and one agent contributes its list's length: it is the sum of the list lengths |
| Registry.HealthCountAppend | src/registry/agent-registry.ts:211-213 | each health count adds up over any split of the table |
| Registry.HealthPartition | src/registry/agent-registry.ts:210-213 | every agent falls in exactly one of the four health counts |
| Registry.Admitted | src/registry/agent-registry.ts:17-38 | a new id gets `created = updated = now` and `healthy`; a known id keeps the incoming `created` and `health` and gets `updated = now`; every other field is the incoming card's |
| Registry.ReRegistrationLosesCreated | src/registry/agent-registry.ts:20-27 | re-registration loses the stored `created` whenever the incoming card has another one |
| Registry.Probe | src/registry/agent-registry.ts:158-171 | healthy iff there is no http endpoint or the card was updated less than five minutes ago |
| Registry.HasHttp | src/registry/agent-registry.ts:160 | true iff some endpoint is http |
| Registry.TickWrite | src/registry/agent-registry.ts:133-153 | a throw writes `unhealthy`; otherwise the verdict is written only when it differs from the stored health |
| Registry.UnhealthyFlapsBack | src/registry/agent-registry.ts:143-148 | an agent just marked unhealthy for silence is marked healthy by any tick within five minutes |
| Registry.SweepUndoneByTick | src/registry/agent-registry.ts:176-182 | the sweep's `unknown` is replaced by `healthy` at the next tick |
| Registry.Swept | src/registry/agent-registry.ts:176-182 | a card last updated more than ten minutes ago becomes `unknown` with `updated = now`; any other is unchanged |
| Registry.SweepKeepsFresh | src/registry/agent-registry.ts:176-182 | a table with no stale card is left as it was |
| Registry.Unpair | src/registry/agent-registry.ts:50-53 | clearing an id's timer keeps one timer per id, leaves that id with none and every other id with its own |
| Registry.Unchecked | src/registry/agent-registry.ts:50-51 | an id with no recorded timer has none running |
| Registry.AgentRegistry.constructor | src/registry/agent-registry.ts:6-14 | all tables start empty |
| Registry.AgentRegistry.StartAgentHealthCheck | src/registry/agent-registry.ts:125-156 | the earlier timer is cleared and exactly one new timer runs for the id |
| Registry.AgentRegistry.RegisterAgent | src/registry/agent-registry.ts:17-42 | the admitted card is stored (a known id keeps its position), the matching event is emitted, and exactly one timer runs for the id while the others keep theirs |
| Registry.AgentRegistry.StopHealthCheck | src/registry/agent-registry.ts:50-54 | the id's timer is cleared and forgotten; the other ids keep theirs |
| Registry.AgentRegistry.UnregisterAgent | src/registry/agent-registry.ts:44-58 | a known id loses its card and its timer and is announced; an unknown id changes nothing and emits nothing |
| Registry.AgentRegistry.UpdateAgentHealth | src/registry/agent-registry.ts:116-123 | a known id gets the health and `updated = now`; an unknown id is a no-op |
| Registry.AgentRegistry.HealthTick | src/registry/agent-registry.ts:133-153 | for a vanished agent the timer stops itself and drops its entry; otherwise the health is written as `TickWrite` decides |
| Registry.AgentRegistry.SweepOne | src/registry/agent-registry.ts:179-182 | one card is swept in place, keeping its position |
| Registry.AgentRegistry.StaleSweep | src/registry/agent-registry.ts:173-185 | the table becomes `SweepTable` of the old one with the same order, and one event per stale card in table order |
| Registry.AgentRegistry.SweepAgents | src/registry/agent-registry.ts:178-183 | the loop sweeps every card in table order |
| Registry.AgentRegistry.RegisterCluster | src/registry/agent-registry.ts:188-194 | the cluster is stored by id with `last_seen = now`, and the event carries it as given |
| Registry.AgentRegistry.UnregisterCluster | src/registry/agent-registry.ts:196-202 | a known cluster is removed and announced; an unknown id is a no-op |
| Registry.AgentRegistry.GetClusters | src/registry/agent-registry.ts:204-206 | the clusters in table order |
| Registry.AgentRegistry.GetAgent | src/registry/agent-registry.ts:107-109 | the stored card iff the id is stored |
| Registry.AgentRegistry.GetAllAgents | src/registry/agent-registry.ts:111-113 | the cards in table order |
| Registry.AgentRegistry.DiscoverAgents | src/registry/agent-registry.ts:61-105 | the answer is `Discover` over the current table |
| Registry.AgentRegistry.GetStatistics | src/registry/agent-registry.ts:209-223 | the statistics are computed afresh from the current tables |
| HealthChecks.TimeoutMs | src/utils/health-checker.ts:59 | an absent or zero timeout falls back to 5 seconds; any other is taken in seconds |
| HealthChecks.HealthPath | src/utils/health-checker.ts:60 | an absent or empty path falls back to `/health` |
| HealthChecks.IntervalMs | src/utils/health-checker.ts:164 | an absent or zero interval falls back to 30 seconds |
| HealthChecks.CheckEndpoint | src/utils/health-checker.ts:54-85 | an endpoint passes iff its type is http, grpc or websocket and its probe answers; an unknown type or a throw fails |
| HealthChecks.StubVerdict | src/utils/health-checker.ts:90-153 | with the simulated probes, an agent is healthy iff it has no endpoints or some endpoint of a known type |
| HealthChecks.OwnedByRecord | src/utils/health-checker.ts:14 | the table holds exactly one interval per recorded name and none for any other |
| HealthChecks.RecordFresh | src/utils/health-checker.ts:182 | recording a fresh interval for an unrecorded name keeps one interval per name |
| HealthChecks.DropRecord | src/utils/health-checker.ts:193-203 | dropping a name's interval leaves it none and every other name its own |
| HealthChecks.Restart | src/utils/health-checker.ts:166-182 | replacing a name's interval leaves exactly the new one for it and every other name its own |
| HealthChecks.HealthChecker.constructor | src/utils/health-checker.ts:12-18 | no check is active |
| HealthChecks.HealthChecker.CheckAgent | src/utils/health-checker.ts:23-49 | the verdict is `AgentHealthy`: true for no endpoints, else true iff some endpoint passes; endpoints are tried in order, up to the first that passes |
| HealthChecks.HealthChecker.StopPeriodicCheck | src/utils/health-checker.ts:193-203 | the name's interval is cleared and forgotten; without one this is a no-op, so a double stop is safe |
| HealthChecks.HealthChecker.StartPeriodicCheck | src/utils/health-checker.ts:159-188 | exactly one interval, the new one, runs for the name; the other names keep theirs |
| HealthChecks.HealthChecker.Schedule | src/utils/health-checker.ts:169-182 | a name without an interval gets a fresh one, recorded in the table, and no other name's interval changes |
| HealthChecks.HealthChecker.Tick | src/utils/health-checker.ts:169-180 | a firing reports the agent's verdict |
| HealthChecks.HealthChecker.Stop | src/utils/health-checker.ts:208-216 | clearing every recorded name's interval leaves none running, and the table is emptied |
| Controller.Merge | src/k8s/agent-controller.ts:192-196 | supplied fields overwrite, absent ones are kept, and `lastSeen` is stamped |
| Controller.MergeTwice | src/k8s/agent-controller.ts:192-196 | writing the same patch twice equals writing it once at the later time |
| Controller.ConditionsReplaced | src/k8s/agent-controller.ts:192-196 | a supplied condition list replaces the recorded one, whatever it was |
| Controller.SemVerAccepts | src/k8s/agent-controller.ts:405 | every optional `v` followed by three non-empty digit runs joined by dots passes |
| Controller.SemVerShape | src/k8s/agent-controller.ts:405 | every version that passes has that shape |
| Controller.SemVerAcceptsRelease | src/k8s/agent-controller.ts:405 | "1.2.3" passes |
| Controller.SemVerAcceptsTag | src/k8s/agent-controller.ts:405 | "v1.2.3" passes |
| Controller.SemVerRejectsShort | src/k8s/agent-controller.ts:405 | "1.2" fails |
| Controller.SemVerRejectsLong | src/k8s/agent-controller.ts:405 | "v1.2.3.4" fails |
| Controller.SemVerRejectsPrerelease | src/k8s/agent-controller.ts:405 | "1.2.3-rc" fails |
| Controller.ValidationError | src/k8s/agent-controller.ts:395-408 | the rules are checked in order (name and version, capabilities, version shape), and the spec is accepted iff all three hold |
| Controller.ReconcileFailure | src/k8s/agent-controller.ts:352-355 | an absent spec fails with a TypeError; otherwise reconciliation fails iff validation does, with the validation message |
| Controller.CapabilityIds | src/k8s/agent-controller.ts:371 | the spec's capability ids in order |
| Controller.StatusWrite | src/k8s/agent-controller.ts:180-215 | a missing object raises and nothing is written; otherwise only that object's status changes, to the merge, and the write is announced |
| Controller.ReconcileInvalid | src/k8s/agent-controller.ts:376-389 | an invalid spec leaves the agent Failed with exactly one Ready/False condition, whatever its phase was |
| Controller.ReconcilePending | src/k8s/agent-controller.ts:356-374 | a valid Pending agent becomes Running with exactly one Ready/True condition and its capability ids |
| Controller.ReconcileOtherPhase | src/k8s/agent-controller.ts:356-374 | a valid agent in any other phase, or with no status, keeps its phase and conditions and records its capability ids |
| Controller.ReconcileSettles | src/k8s/agent-controller.ts:345-390 | reconciling a valid object twice changes nothing but `lastSeen` the second time |
| Controller.RegisteredThenReconciled | src/k8s/agent-controller.ts:129-134 | a freshly registered valid agent, once reconciled, is Running, still of unknown health, and lists its capabilities |
| Controller.InitialObject | src/k8s/agent-controller.ts:110-135 | the four standard labels under the caller's, the registration time and version annotations, and status Pending/unknown/[]/[] |
| Controller.HealthPatch | src/k8s/agent-controller.ts:435-465 | a verdict is written, with one Healthy condition, only when it differs from the recorded health; a throw resets health to unknown, with no condition, unless it already is unknown |
| Controller.HealthChecked | src/k8s/agent-controller.ts:432-466 | the check raises only for an object that has vanished, and then changes nothing |
| Controller.HealthCheckWrites | src/k8s/agent-controller.ts:443-465 | for a stored object: a changed verdict stores the health, one Healthy condition and a health-changed event; an unchanged one writes nothing; a throw stores `unknown`, unless it already is unknown, and keeps the conditions |
| Controller.MonitorAbortSticks | src/k8s/agent-controller.ts:416-426 | once a check has thrown, the rest of the pass changes nothing |
| Controller.MonitorKeepsObjects | src/k8s/agent-controller.ts:420-422 | the pass never adds or removes objects |
| Controller.MonitorCompletes | src/k8s/agent-controller.ts:420-422 | when every listed object is stored, the pass checks all of them |
| Controller.AgentController.constructor | src/k8s/agent-controller.ts:44-60 | an empty store and a health checker with no active checks |
| Controller.AgentController.GetAgent | src/k8s/agent-controller.ts:220-236 | the stored object iff the name is stored |
| Controller.AgentController.RegisterAgent | src/k8s/agent-controller.ts:103-152 | a new name stores `InitialObject` and is announced; an existing name is refused and nothing changes |
| Controller.AgentController.UnregisterAgent | src/k8s/agent-controller.ts:157-175 | a stored name is deleted and announced; a missing one is refused and nothing changes |
| Controller.AgentController.UpdateAgentStatus | src/k8s/agent-controller.ts:180-215 | the new state is `StatusWrite` of the old one; a missing object changes nothing |
| Controller.AgentController.Reconcile | src/k8s/agent-controller.ts:345-390 | the new state is `Reconciled` of the old one |
| Controller.AgentController.HandleAgentEvent | src/k8s/agent-controller.ts:319-340 | ADDED and MODIFIED are announced and reconciled; DELETED is only announced; any other type changes nothing |
| Controller.AgentController.CheckAgentHealth | src/k8s/agent-controller.ts:432-466 | the new state and whether it raised are `HealthChecked` of the old state |
| Controller.AgentController.MonitorTick | src/k8s/agent-controller.ts:416-426 | the new state is `Monitored` over the listed objects, stopping at the first throw |
| Controller.AgentController.Stop | src/k8s/agent-controller.ts:90-98 | the health checker's table is emptied and `stopped` is emitted; the monitoring interval is not cancelled |
| Hub.LastSegment | src/server/index.ts:30 | the connection id contains no slash |
| Hub.LastSegmentAfterSlash | src/server/index.ts:30 | the id is whatever follows the last slash |
| Hub.LastSegmentEmpty | src/server/index.ts:29-35 | the id is empty iff the path is empty or ends with a slash |
| Hub.Decode | src/server/index.ts:103-136 | exactly the six registry methods are dispatched; any other method is unknown; only a registration, or unreadable params, can throw |
| Hub.CardList | src/server/index.ts:122-124 | the cards as a JSON list, in order |
| Hub.Answer | src/server/index.ts:102-142 | an error iff the method is unknown (-32601 with `{method}`) or the call threw (-32603 with the message); discovery and lookup answer from the registry's table |
| Hub.HubReplyAsWritten | src/server/index.ts:145-155 | as written, the reply carries the request's id and the outcome but no correlation id |
| Hub.HubReply | src/server/index.ts:145-155 | the reply carries the request's id, the outcome, and the id's text as correlation id |
| Hub.ReplyAsWrittenIsDropped | src/server/index.ts:145-155 | as written, the requester drops every hub reply to its request |
| Hub.ReplySettlesRequest | src/server/index.ts:145-155 | with the correlation id, the hub's reply settles exactly the request it answers |
| Hub.SupersededCloseDropsLive | src/server/index.ts:49-53 | as written, the close of a superseded socket removes the agent's live connection and the live agent's registry card |
| Hub.UnregisteredAsWritten | src/server/index.ts:52 | the close handler's unconditional unregistration leaves the table without the agent's card |
| Hub.Closed | src/server/index.ts:49-53 | a close removes the agent's entry only when the closing socket is the recorded one |
| Hub.CloseKeepsLive | src/server/index.ts:49-53 | closing a superseded socket keeps the live connection; closing the live one removes exactly that entry |
| Hub.Hub.constructor | src/server/index.ts:24-25 | no connections, nothing sent |
| Hub.Hub.Connect | src/server/index.ts:28-38 | an empty id closes the socket with 1008 and records nothing; otherwise the socket becomes the agent's connection |
| Hub.Hub.SocketStateChanged | src/server/index.ts:68 | the socket's ready state is updated and nothing else changes |
| Hub.Hub.Close | src/server/index.ts:49-53 | the live connection's close forgets it and unregisters the agent; a superseded socket's close changes neither |
| Hub.Hub.Perform | src/server/index.ts:102-142 | the outcome is `Answer` and the agent table becomes `AgentsAfter` of the old one |
| Hub.Hub.HandleRegistryRequest | src/server/index.ts:97-161 | one reply to the sender, sent iff its connection is open |
| Hub.Hub.HandleAgentMessage | src/server/index.ts:61-94 | registry traffic is answered; any other message goes unchanged to an open target, or the sender, if open, gets -32001 with the target's name |

## Left out

- URL parsing: the connection's pathname is taken as given.
- JSON parsing of inbound socket data, and the hub's swallowing of parse errors.
- `agent/register` params that are not an agent card are treated as a read error.
- Discovery filter fields that are not lists of strings are treated as absent.
- A missing result (`undefined`) is modelled as JSON `null`.
- Ids that are neither strings nor numbers.
- A request whose `method` is not a string: its -32601 error carries `data: {}` where the source echoes the value (`{method: 5}`).
- Strings.Lower: lower-cases ASCII letters only, where JavaScript's `toLowerCase` maps all of Unicode and can change the length ("İ" becomes two code units). So `FindSkill`, `QuerySkill` and the capability filter of discovery treat non-ASCII names case-sensitively: a capability named "Übersetzung" is not found for the skill "übersetzung".
- A response `error` field that is not a JSON-RPC error object.
- The Kubernetes API, the CRD check and the watch subscription with its retry.
  - The controller's `start` is not modelled.
  - A create conflict and a delete of a missing object are modelled as refusals that change nothing.
  - `listAgents` is an argument of `MonitorTick`.
- ISO timestamps are modelled as integers of milliseconds. The `registered-at` annotation is the integer's decimal text.
- The spec's `description`, `authentication` and `resources` fields. The controller never reads them.
- Real HTTP, gRPC and WebSocket probing. Probes are a parameter.
- The health-check config's `retries`. The source never reads it.
- The timing of intervals. Each firing is a method call.
- Async interleavings, such as an unawaited reconcile overlapping another write, or a health tick overlapping an unregistration. Each operation is atomic here.
- A second `start` attaching a second listener.
- Logging, `console` output and the transport's `send` plumbing.
- Socket ready states other than OPEN and CLOSED. They reach the model only through `Hub.Hub.SocketStateChanged`.
- Agents.BaseAgent.GetStatus: returns the card value. The shallow copy still shares the capability array with the agent; this aliasing is not modelled.
- Agents.BaseAgent.UpdateHealth: requires a status other than `unknown`, the three values the method's signature admits.
- Protocol.A2AProtocol.SendRequest: the random id is a parameter required to be non-empty and not pending. The source's random ids are very likely, but not certain, to satisfy this.
- Hub.Hub.HandleRegistryRequest: sends the corrected reply, which carries the correlation id (first row of "## Findings").
- Hub.Hub.HandleAgentMessage: the -32001 bounce and the registry replies carry the correlation id, as corrected (first row of "## Findings").
- Hub.Hub.Close: models the corrected close handler (second row of "## Findings").
- The demo agent, the UI, the express routes, static serving and process signal handling are not part of this model.

## Findings

| source | as written | input that shows it | evidently intended | confidence | as-written member | corrected member |
|---|---|---|---|---|---|---|
| src/server/index.ts:145-155 | the hub's replies carry no `correlation_id`, and so do its -32001 bounces (lines 72-86) | an agent calls `sendRequest("registry", "agent/list")`; the reply has `correlation_id` undefined, so `handleMessage` drops it and the call times out after 30 s | the reply carries the request id's text as `correlation_id`, as `sendResponse` does, and settles the request | high, not executed | Hub.ReplyAsWrittenIsDropped | Hub.ReplySettlesRequest |
| src/server/index.ts:49-53 | the close handler deletes whatever connection is recorded under the agent id and unregisters the agent | connect socket 1 on "/a", reconnect socket 2 on "/a", then socket 1 closes: agent "a" loses its live connection and its registration | only the close of the socket still recorded for the id forgets the connection and unregisters the agent | medium, not executed | Hub.SupersededCloseDropsLive | Hub.CloseKeepsLive |
