/** The communication hub (src/server/index.ts): agents connect over sockets
    named by the last segment of their URL path; messages addressed to
    `registry` are answered from the registry, all others are forwarded to an
    open connection of the target or bounced with an "unavailable" error. */
module Hub {
  import opened Types
  import opened Strings
  import opened OrderedMaps
  import opened Protocol
  import opened Registry

  const REGISTRY := "registry"
  /** The socket ready states used here: OPEN and CLOSED. */
  const OPEN := 1
  const CLOSED := 3
  /** The close code for a connection without an agent id (policy violation). */
  const POLICY_VIOLATION := 1008
  const INVALID_AGENT_ID := "Invalid agent ID"
  const UNAVAILABLE_MESSAGE := "Agent not found or unavailable"

  // ---------------------------------------------------------------------------
  // Connection ids

  /** `pathname.split('/').pop()`. */
  function LastSegment(path: string): (id: string)
    ensures '/' !in id
  {
    var parts := Split(path, '/');
    JoinSplit(path, '/');
    parts[|parts| - 1]
  }

  /** The id is whatever follows the last slash. */
  lemma {:induction false} LastSegmentAfterSlash(prefix: string, id: string)
    requires '/' !in id
    ensures LastSegment(prefix + "/" + id) == id
  {
    SplitConcat(prefix, '/', id);
    SplitWithoutSeparator(id, '/');
  }

  /** The id is empty exactly when the path is empty or ends with a slash. */
  lemma {:induction false} LastSegmentEmpty(path: string)
    ensures LastSegment(path) == "" <==> path == "" || path[|path| - 1] == '/'
  {
    var parts := Split(path, '/');
    var last := parts[|parts| - 1];
    JoinSplit(path, '/');
    if |parts| == 1 {
      assert path == last;
    } else {
      JoinLast(parts, '/');
      assert path == Join(parts[..|parts| - 1], '/') + ['/'] + last;
      if last != "" {
        assert path[|path| - 1] == last[|last| - 1];
        assert last[|last| - 1] in last;
      }
    }
  }

  // ---------------------------------------------------------------------------
  // Registry dispatch

  /** The registry call a request asks for, with its parameters read the way the
      dispatch reads them. */
  datatype RegistryCall =
    | Register(card: AgentCard)
    | Unregister(agentId: Option<string>)
    | DiscoverCall(request: DiscoveryRequest)
    | GetCall(agentId: Option<string>)
    | ListCall
    | StatsCall
    | UnknownMethod(methodName: Option<string>)
    | Fails(thrown: Thrown)

  const REGISTRY_METHODS := ["agent/register", "agent/unregister", "agent/discover", "agent/get", "agent/list", "registry/stats"]

  /** Params that cannot be read at all (`undefined` or `null`). */
  predicate Unreadable(params: Option<Value>) {
    params.None? || params == Some(Null)
  }

  /** The TypeError reading a property of unreadable params raises. */
  function ReadError(params: Option<Value>, field: string): Thrown {
    ErrorThrown("Cannot read properties of " + (if params == Some(Null) then "null" else "undefined") + " (reading '" + field + "')")
  }

  /** `params.field`: present only on an object that has it. */
  function FieldOf(params: Option<Value>, field: string): Option<Value> {
    if params.Some? && params.value.Object? && field in params.value.fields then Some(params.value.fields[field]) else None
  }

  /** `params.agent_id` when it is a string; any other value finds no agent. */
  function AgentIdParam(params: Option<Value>): Option<string> {
    var v := FieldOf(params, "agent_id");
    if v.Some? && v.value.Str? then Some(v.value.s) else None
  }

  /** A JSON array of strings. */
  function StringsOf(v: Option<Value>): Option<seq<string>> {
    if v.Some? && v.value.List? && forall i :: 0 <= i < |v.value.items| ==> v.value.items[i].Str? then
      Some(seq(|v.value.items|, i requires 0 <= i < |v.value.items| && v.value.items[i].Str? => v.value.items[i].s))
    else None
  }

  function DiscoveryParams(params: Option<Value>): DiscoveryRequest {
    var location := FieldOf(params, "location");
    DiscoveryRequest(
      StringsOf(FieldOf(params, "capabilities")),
      StringsOf(FieldOf(params, "modalities")),
      if location.Some? && location.value.Str? then Some(location.value.s) else None)
  }

  /** The `switch (request.method)`: exactly the six registry methods are
      dispatched; reading a field of unreadable params throws. */
  function Decode(p: Payload): (call: RegistryCall)
    ensures call.UnknownMethod? <==> !(PayloadMethod(p).Some? && PayloadMethod(p).value in REGISTRY_METHODS)
    ensures call.UnknownMethod? ==> call.methodName == PayloadMethod(p)
    ensures PayloadMethod(p) == Some("agent/list") ==> call == ListCall
    ensures PayloadMethod(p) == Some("registry/stats") ==> call == StatsCall
    ensures call.Register? ==> PayloadMethod(p) == Some("agent/register") && PayloadParams(p) == Some(Card(call.card))
    ensures call.Fails? ==> Unreadable(PayloadParams(p)) || PayloadMethod(p) == Some("agent/register")
  {
    var params := PayloadParams(p);
    match PayloadMethod(p)
    case Some("agent/register") =>
      if params.Some? && params.value.Card? then Register(params.value.card) else Fails(ReadError(params, "id"))
    case Some("agent/unregister") =>
      if Unreadable(params) then Fails(ReadError(params, "agent_id")) else Unregister(AgentIdParam(params))
    case Some("agent/discover") =>
      if Unreadable(params) then Fails(ReadError(params, "capabilities")) else DiscoverCall(DiscoveryParams(params))
    case Some("agent/get") =>
      if Unreadable(params) then Fails(ReadError(params, "agent_id")) else GetCall(AgentIdParam(params))
    case Some("agent/list") => ListCall
    case Some("registry/stats") => StatsCall
    case m => UnknownMethod(m)
  }

  function Acknowledgement(message: string): Value {
    Object(map["success" := Bool(true), "message" := Str(message)])
  }

  const REGISTERED := Acknowledgement("Agent registered successfully")
  const UNREGISTERED := Acknowledgement("Agent unregistered successfully")

  function CardList(cards: seq<AgentCard>): (v: Value)
    ensures v.List? && |v.items| == |cards| && forall i :: 0 <= i < |cards| ==> v.items[i] == Card(cards[i])
  {
    List(seq(|cards|, i requires 0 <= i < |cards| => Card(cards[i])))
  }

  function DiscoveryValue(r: DiscoveryResponse): Value {
    Object(map["agents" := CardList(r.agents), "total" := Int(r.total), "page" := Int(r.page), "per_page" := Int(r.perPage)])
  }

  function StatisticsValue(s: Statistics): Value {
    Object(map[
      "total_agents" := Int(s.totalAgents),
      "healthy_agents" := Int(s.healthyAgents),
      "degraded_agents" := Int(s.degradedAgents),
      "unhealthy_agents" := Int(s.unhealthyAgents),
      "total_clusters" := Int(s.totalClusters),
      "total_capabilities" := Int(s.totalCapabilities)])
  }

  /** The `-32601` error for a method the registry does not serve. */
  function MethodNotFound(methodName: Option<string>): JsonRpcError {
    JsonRpcError(METHOD_NOT_FOUND, "Method not found",
      Some(Object(if methodName.Some? then map["method" := Str(methodName.value)] else map[])))
  }

  /** What the registry answers, given the tables before the call. An unknown id
      answers `null`. */
  function Answer(call: RegistryCall, agents: OrderedMap<string, AgentCard>, clusterCount: nat): (r: RpcOutcome)
    requires agents.Valid()
    ensures r.RpcError? <==> call.UnknownMethod? || call.Fails?
    ensures call.UnknownMethod? ==> r.error == MethodNotFound(call.methodName)
    ensures call.Fails? ==> r.error == JsonRpcError(INTERNAL_ERROR, ThrownMessage(call.thrown), None)
    ensures call.DiscoverCall? ==> r.result == DiscoveryValue(Discover(agents.Values(), call.request))
    ensures call.GetCall? ==>
      r.result == (if call.agentId.Some? && call.agentId.value in agents.entries then Card(agents.entries[call.agentId.value]) else Null)
  {
    match call
    case Register(_) => RpcResult(REGISTERED)
    case Unregister(_) => RpcResult(UNREGISTERED)
    case DiscoverCall(req) => RpcResult(DiscoveryValue(Discover(agents.Values(), req)))
    case GetCall(id) =>
      RpcResult(if id.Some? && id.value in agents.entries then Card(agents.entries[id.value]) else Null)
    case ListCall => RpcResult(CardList(agents.Values()))
    case StatsCall => RpcResult(StatisticsValue(Stats(agents.Values(), clusterCount)))
    case UnknownMethod(m) => RpcError(MethodNotFound(m))
    case Fails(t) => RpcError(JsonRpcError(INTERNAL_ERROR, ThrownMessage(t), None))
  }

  /** The agent table after the call: registration admits the card, an
      unregistration of a known id removes it, everything else reads only. */
  function AgentsAfter(call: RegistryCall, agents: OrderedMap<string, AgentCard>, now: int): OrderedMap<string, AgentCard>
    requires agents.Valid()
  {
    match call
    case Register(card) => agents.Put(card.id, Admitted(card.id in agents.entries, card, now))
    case Unregister(id) => if id.Some? && id.value in agents.entries then agents.Remove(id.value) else agents
    case _ => agents
  }

  // ---------------------------------------------------------------------------
  // Replies

  /** The reply envelope the hub builds, as written: the request's id and the
      outcome, but no correlation id. */
  function HubReplyAsWritten(to: string, id: Option<RpcId>, outcome: RpcOutcome, now: int): (m: AgentMessage)
    ensures m.kind == Response && m.from == REGISTRY && m.to == to && m.correlationId == None
    ensures m.payload == RpcResponse(id, outcome)
  {
    AgentMessage(REGISTRY, to, Response, RpcResponse(id, outcome), now, None, None)
  }

  /** The reply envelope with the correlation id `sendResponse` would give it
      (the request id as text), so that the requester can match it. */
  function HubReply(to: string, id: Option<RpcId>, outcome: RpcOutcome, now: int): (m: AgentMessage)
    ensures m.kind == Response && m.from == REGISTRY && m.to == to
    ensures m.payload == RpcResponse(id, outcome)
    ensures m.correlationId == (if id.Some? then Some(IdText(id.value)) else None)
  {
    AgentMessage(REGISTRY, to, Response, RpcResponse(id, outcome), now, if id.Some? then Some(IdText(id.value)) else None, None)
  }

  /** The `-32001` error for a target that is absent or not open. */
  function UnavailableError(target: string): JsonRpcError {
    JsonRpcError(AGENT_NOT_FOUND, UNAVAILABLE_MESSAGE, Some(Object(map["target_agent" := Str(target)])))
  }

  /** As written, a hub reply to a request sent with `sendRequest` never settles
      it: the requester drops it and the request can only time out. */
  lemma ReplyAsWrittenIsDropped(pending: map<string, Waiter>, streams: map<string, HandlerId>,
                                me: string, id: string, methodName: string, params: Option<Value>, outcome: RpcOutcome, t0: int, now: int)
    requires id != "" && id in pending
    ensures var request := RequestEnvelope(me, REGISTRY, id, methodName, params, t0);
      Route(pending, streams, HubReplyAsWritten(me, PayloadId(request.payload), outcome, now)) == Dropped
  {
  }

  /** With the correlation id, the reply to a request sent with `sendRequest`
      settles exactly that request with the hub's answer. */
  lemma ReplySettlesRequest(pending: map<string, Waiter>, streams: map<string, HandlerId>,
                            me: string, id: string, methodName: string, params: Option<Value>, outcome: RpcOutcome, t0: int, now: int)
    requires id != "" && id in pending
    ensures var request := RequestEnvelope(me, REGISTRY, id, methodName, params, t0);
      var reply := HubReply(me, PayloadId(request.payload), outcome, now);
      Route(pending, streams, reply) == Settled(id, Settle(pending[id], RpcResponse(Some(StrId(id)), outcome)))
  {
  }

  // ---------------------------------------------------------------------------
  // Closing a connection

  type SocketId = nat

  /** The close handler as written: it deletes whatever connection is recorded
      under the agent id, even when the closing socket has been superseded. */
  function ClosedAsWritten(connections: map<string, SocketId>, socket: SocketId, agentId: string): map<string, SocketId> {
    connections - {agentId}
  }

  /** The close handler's `registry.unregisterAgent(agentId)` as written: it runs
      for every closing socket, superseded or not. */
  function UnregisteredAsWritten(agents: OrderedMap<string, AgentCard>, agentId: string): (r: OrderedMap<string, AgentCard>)
    requires agents.Valid()
    ensures r.Valid() && r.entries == agents.entries - {agentId}
  {
    if agentId in agents.entries then agents.Remove(agentId) else agents
  }

  /** A superseded socket's close drops the agent's live connection and removes
      the live agent's card from the registry. */
  lemma SupersededCloseDropsLive(connections: map<string, SocketId>, agents: OrderedMap<string, AgentCard>,
                                 stale: SocketId, agentId: string)
    requires agents.Valid()
    requires agentId in connections && connections[agentId] != stale && agentId in agents.entries
    ensures agentId !in ClosedAsWritten(connections, stale, agentId)
    ensures agentId !in UnregisteredAsWritten(agents, agentId).entries
  {
  }

  /** The close handler acting only for the socket it belongs to. */
  function Closed(connections: map<string, SocketId>, socket: SocketId, agentId: string): (r: map<string, SocketId>)
    ensures agentId in connections && connections[agentId] == socket ==> r == connections - {agentId}
    ensures !(agentId in connections && connections[agentId] == socket) ==> r == connections
  {
    if agentId in connections && connections[agentId] == socket then connections - {agentId} else connections
  }

  /** Closing a superseded socket leaves the live connection alone; closing the
      live one removes exactly that agent's entry. */
  lemma {:induction false} CloseKeepsLive(connections: map<string, SocketId>, socket: SocketId, agentId: string)
    ensures agentId in connections && connections[agentId] != socket ==> Closed(connections, socket, agentId) == connections
    ensures agentId in connections && connections[agentId] == socket ==>
      agentId !in Closed(connections, socket, agentId) &&
      forall other :: other != agentId ==> (other in Closed(connections, socket, agentId) <==> other in connections)
  {
  }

  // ---------------------------------------------------------------------------
  // The hub

  class Hub {
    const registry: AgentRegistry
    /** `agentConnections`: the socket recorded for each agent id. */
    var connections: map<string, SocketId>
    /** The sockets' ready states, as the socket library reports them. */
    var readyState: map<SocketId, int>
    /** Envelopes sent, with the socket each went to. */
    var sent: seq<(SocketId, AgentMessage)>
    /** Sockets closed by the hub, with code and reason. */
    var closes: seq<(SocketId, int, string)>

    ghost predicate Valid()
      reads this, registry
    {
      registry.Valid()
    }

    /** The agent has a recorded connection that is open. */
    predicate IsOpen(agentId: string)
      reads this
    {
      agentId in connections && connections[agentId] in readyState && readyState[connections[agentId]] == OPEN
    }

    /** What a reply to `agentId` adds to the sent log: one envelope if its
        connection is open, nothing otherwise. */
    function Delivered(agentId: string, reply: AgentMessage): seq<(SocketId, AgentMessage)>
      reads this
    {
      if IsOpen(agentId) then [(connections[agentId], reply)] else []
    }

    constructor (registry: AgentRegistry)
      requires registry.Valid()
      ensures Valid() && this.registry == registry
      ensures connections == map[] && readyState == map[] && sent == [] && closes == []
    {
      this.registry := registry;
      connections := map[];
      readyState := map[];
      sent := [];
      closes := [];
    }

    /** A new socket on `path`: an empty agent id closes it with 1008 and records
        nothing; otherwise the socket becomes the agent's connection. */
    method Connect(socket: SocketId, path: string)
      modifies this
      ensures LastSegment(path) == "" ==>
        closes == old(closes) + [(socket, POLICY_VIOLATION, INVALID_AGENT_ID)] &&
        connections == old(connections) && readyState == old(readyState)
      ensures LastSegment(path) != "" ==>
        connections == old(connections)[LastSegment(path) := socket] &&
        readyState == old(readyState)[socket := OPEN] && closes == old(closes)
      ensures sent == old(sent)
    {
      var agentId := LastSegment(path);
      if agentId == "" {
        closes := closes + [(socket, POLICY_VIOLATION, INVALID_AGENT_ID)];
        return;
      }
      connections := connections[agentId := socket];
      readyState := readyState[socket := OPEN];
    }

    /** The socket library reports a new ready state. */
    method SocketStateChanged(socket: SocketId, state: int)
      modifies this
      ensures readyState == old(readyState)[socket := state]
      ensures connections == old(connections) && sent == old(sent) && closes == old(closes)
    {
      readyState := readyState[socket := state];
    }

    /** The close handler of `socket`, recorded for `agentId`: if it is still the
        agent's connection, the connection is forgotten and the agent
        unregistered; a superseded socket changes neither. */
    method Close(socket: SocketId, agentId: string)
      requires Valid()
      modifies this, registry
      ensures Valid()
      ensures connections == Closed(old(connections), socket, agentId)
      ensures readyState == old(readyState)[socket := CLOSED]
      ensures old(agentId in connections && connections[agentId] == socket) ==>
        registry.agents == (if agentId in old(registry.agents.entries) then old(registry.agents).Remove(agentId) else old(registry.agents))
      ensures !old(agentId in connections && connections[agentId] == socket) ==> registry.agents == old(registry.agents)
      ensures registry.clusters == old(registry.clusters) && sent == old(sent) && closes == old(closes)
    {
      readyState := readyState[socket := CLOSED];
      if agentId in connections && connections[agentId] == socket {
        connections := connections - {agentId};
        registry.UnregisterAgent(agentId);
      }
    }

    /** Run one registry call. */
    method Perform(call: RegistryCall, now: int) returns (outcome: RpcOutcome)
      requires Valid()
      modifies registry
      ensures Valid()
      ensures outcome == Answer(call, old(registry.agents), |old(registry.clusters.keys)|)
      ensures registry.agents == AgentsAfter(call, old(registry.agents), now)
      ensures registry.clusters == old(registry.clusters)
    {
      match call
      case Register(card) =>
        registry.RegisterAgent(card, now);
        outcome := RpcResult(REGISTERED);
      case Unregister(id) =>
        if id.Some? {
          registry.UnregisterAgent(id.value);
        }
        outcome := RpcResult(UNREGISTERED);
      case DiscoverCall(req) =>
        var r := registry.DiscoverAgents(req);
        outcome := RpcResult(DiscoveryValue(r));
      case GetCall(id) =>
        var card := None;
        if id.Some? {
          card := registry.GetAgent(id.value);
        }
        outcome := RpcResult(if card.Some? then Card(card.value) else Null);
      case ListCall =>
        var cards := registry.GetAllAgents();
        outcome := RpcResult(CardList(cards));
      case StatsCall =>
        var s := registry.GetStatistics();
        outcome := RpcResult(StatisticsValue(s));
      case UnknownMethod(m) =>
        outcome := RpcError(MethodNotFound(m));
      case Fails(t) =>
        outcome := RpcError(JsonRpcError(INTERNAL_ERROR, ThrownMessage(t), None));
    }

    /** `handleRegistryRequest`: answer the call and reply to the sender if its
        connection is open. */
    method HandleRegistryRequest(message: AgentMessage, from: string, now: int) returns (reply: AgentMessage)
      requires Valid()
      modifies this, registry
      ensures Valid()
      ensures reply == HubReply(from, PayloadId(message.payload),
        Answer(Decode(message.payload), old(registry.agents), |old(registry.clusters.keys)|), now)
      ensures sent == old(sent) + old(Delivered(from, reply))
      ensures registry.agents == AgentsAfter(Decode(message.payload), old(registry.agents), now)
      ensures registry.clusters == old(registry.clusters)
      ensures connections == old(connections) && readyState == old(readyState) && closes == old(closes)
    {
      var outcome := Perform(Decode(message.payload), now);
      reply := HubReply(from, PayloadId(message.payload), outcome, now);
      if IsOpen(from) {
        sent := sent + [(connections[from], reply)];
      }
    }

    /** `handleAgentMessage`: registry traffic is answered; anything else goes
        unchanged to the target's open connection, or the sender (if open) gets
        a `-32001` error carrying the target's name. */
    method HandleAgentMessage(message: AgentMessage, from: string, now: int)
      requires Valid()
      modifies this, registry
      ensures Valid()
      ensures message.to == REGISTRY ==>
        var reply := HubReply(from, PayloadId(message.payload),
          Answer(Decode(message.payload), old(registry.agents), |old(registry.clusters.keys)|), now);
        sent == old(sent) + (if old(IsOpen(from)) then [(old(connections[from]), reply)] else []) &&
        registry.agents == AgentsAfter(Decode(message.payload), old(registry.agents), now)
      ensures message.to != REGISTRY && old(IsOpen(message.to)) ==>
        sent == old(sent) + [(old(connections[message.to]), message)] && registry.agents == old(registry.agents)
      ensures message.to != REGISTRY && !old(IsOpen(message.to)) ==>
        sent == old(sent) + old(Delivered(from, HubReply(from, PayloadId(message.payload), RpcError(UnavailableError(message.to)), now))) &&
        registry.agents == old(registry.agents)
      ensures registry.clusters == old(registry.clusters)
      ensures connections == old(connections) && readyState == old(readyState) && closes == old(closes)
    {
      if message.to == REGISTRY {
        var reply := HandleRegistryRequest(message, from, now);
      } else if IsOpen(message.to) {
        sent := sent + [(connections[message.to], message)];
      } else {
        var reply := HubReply(from, PayloadId(message.payload), RpcError(UnavailableError(message.to)), now);
        if IsOpen(from) {
          sent := sent + [(connections[from], reply)];
        }
      }
    }
  }
}
