/** The agent-to-agent correlation engine (src/communication/protocol.ts).
    Outbound requests wait in a table keyed by correlation id until a response
    with that id, or the 30-second timer, settles them; stream frames go to the
    callback registered for their stream id; inbound requests and notifications
    are handed to the owning agent. Every send appends one envelope to the outbox. */
module Protocol {
  import opened Types
  import opened Strings

  // Error codes (JSON-RPC 2.0 section 5.1, plus the platform's own range).
  const PARSE_ERROR := -32700
  const INVALID_REQUEST := -32600
  const METHOD_NOT_FOUND := -32601
  const INVALID_PARAMS := -32602
  const INTERNAL_ERROR := -32603
  const AGENT_NOT_FOUND := -32001
  const CAPABILITY_NOT_FOUND := -32002
  const AUTHENTICATION_FAILED := -32003
  const AUTHORIZATION_FAILED := -32004
  const RATE_LIMITED := -32005

  /** Milliseconds after which a request still waiting is rejected. */
  const REQUEST_TIMEOUT_MS := 30000
  const TIMEOUT_MESSAGE := "Request timeout"

  /** Who waits on a pending request: a plain `sendRequest` caller, or a
      `createStream` caller that receives the stream id once the peer accepts. */
  datatype Waiter = Caller | StreamCreate(streamId: string)

  /** What a waiting promise is rejected with: an `A2AError` built from the
      response's error object, or the plain timeout `Error`. */
  datatype Rejection = A2AError(code: int, message: string, data: Option<Value>) | PlainError(message: string)

  datatype Settlement = Resolved(value: Value) | Rejected(reason: Rejection)

  /** A registered stream callback, known only by identity. */
  type HandlerId = nat

  /** What handling one inbound envelope does. */
  datatype Delivery =
    | Settled(id: string, settlement: Settlement)
    | StreamFrame(handler: HandlerId, data: Payload)
    | InboundRequest(request: Payload, sender: string)
    | InboundNotification(notification: Payload, sender: string)
    | Dropped

  /** `id.toString()` of a JSON-RPC id. */
  function IdText(id: RpcId): string {
    match id
    case StrId(s) => s
    case NumId(n) => IntText(n)
  }

  /** How the waiter of a pending request settles on a response payload. An error
      object rejects with its code, message and data; otherwise the caller gets
      `result` (`undefined` when the payload carries none) and a stream creator
      gets its stream id. */
  function Settle(w: Waiter, p: Payload): (s: Settlement)
    ensures p.RpcResponse? && p.outcome.RpcError? ==>
      s == Rejected(A2AError(p.outcome.error.code, p.outcome.error.message, p.outcome.error.data))
    ensures s.Resolved? <==> !(p.RpcResponse? && p.outcome.RpcError?)
    ensures s.Resolved? && w.StreamCreate? ==> s.value == Str(w.streamId)
    ensures s.Resolved? && w.Caller? ==> s.value == (if p.RpcResponse? then p.outcome.result else Null)
  {
    if p.RpcResponse? && p.outcome.RpcError? then
      var e := p.outcome.error;
      Rejected(A2AError(e.code, e.message, e.data))
    else if w.StreamCreate? then Resolved(Str(w.streamId))
    else if p.RpcResponse? then Resolved(p.outcome.result)
    else Resolved(Null)
  }

  /** `handleMessage`: the decision taken for one inbound envelope, given the
      pending table and the stream table. Empty correlation and stream ids are
      falsy and count as absent. */
  function Route(pending: map<string, Waiter>, streams: map<string, HandlerId>, msg: AgentMessage): (d: Delivery)
    ensures d.Settled? <==> msg.kind == Response && Present(msg.correlationId) && msg.correlationId.value in pending
    ensures d.Settled? ==> d.id == msg.correlationId.value && d.settlement == Settle(pending[d.id], msg.payload)
    ensures d.StreamFrame? <==> msg.kind == Stream && Present(msg.streamId) && msg.streamId.value in streams
    ensures d.StreamFrame? ==> d == StreamFrame(streams[msg.streamId.value], msg.payload)
    ensures d.InboundRequest? <==> msg.kind == Request
    ensures d.InboundNotification? <==> msg.kind == Notification
    ensures d.InboundRequest? || d.InboundNotification? ==> d == (if msg.kind == Request then InboundRequest(msg.payload, msg.from) else InboundNotification(msg.payload, msg.from))
  {
    match msg.kind
    case Response =>
      if Present(msg.correlationId) && msg.correlationId.value in pending then
        var id := msg.correlationId.value;
        Settled(id, Settle(pending[id], msg.payload))
      else Dropped
    case Stream =>
      if Present(msg.streamId) && msg.streamId.value in streams then
        StreamFrame(streams[msg.streamId.value], msg.payload)
      else Dropped
    case Request => InboundRequest(msg.payload, msg.from)
    case Notification => InboundNotification(msg.payload, msg.from)
  }

  /** The envelope `sendRequest` emits. */
  function RequestEnvelope(from: string, to: string, id: string, methodName: string, params: Option<Value>, now: int): (m: AgentMessage)
    ensures m.kind == Request && m.from == from && m.to == to && m.timestamp == now
    ensures m.correlationId == Some(id) && PayloadId(m.payload) == Some(StrId(id))
    ensures PayloadMethod(m.payload) == Some(methodName) && PayloadParams(m.payload) == params
    ensures m.streamId == None
  {
    AgentMessage(from, to, Request, RpcRequest(methodName, params, StrId(id)), now, Some(id), None)
  }

  /** The envelope `sendNotification` emits: no JSON-RPC id and no correlation id. */
  function NotificationEnvelope(from: string, to: string, methodName: string, params: Option<Value>, now: int): (m: AgentMessage)
    ensures m.kind == Notification && m.from == from && m.to == to && m.timestamp == now
    ensures m.correlationId == None && PayloadId(m.payload) == None
    ensures PayloadMethod(m.payload) == Some(methodName) && PayloadParams(m.payload) == params
  {
    AgentMessage(from, to, Notification, RpcNotification(methodName, params), now, None, None)
  }

  /** The envelope `sendResponse` emits: the error when one is given, otherwise
      the result (`undefined` when none), never both; the correlation id is the
      id's text. */
  function ResponseEnvelope(from: string, to: string, id: RpcId, result: Option<Value>, error: Option<JsonRpcError>, now: int): (m: AgentMessage)
    ensures m.kind == Response && m.from == from && m.to == to && m.timestamp == now
    ensures m.correlationId == Some(IdText(id)) && PayloadId(m.payload) == Some(id)
    ensures m.payload.RpcResponse? && (m.payload.outcome.RpcError? <==> error.Some?)
    ensures error.Some? ==> m.payload.outcome.error == error.value
    ensures error.None? ==> m.payload.outcome.result == result.GetOr(Null)
  {
    var outcome := if error.Some? then RpcError(error.value) else RpcResult(result.GetOr(Null));
    AgentMessage(from, to, Response, RpcResponse(Some(id), outcome), now, Some(IdText(id)), None)
  }

  /** The envelope `sendStreamData` emits. */
  function StreamEnvelope(from: string, to: string, streamId: string, data: Value, now: int): (m: AgentMessage)
    ensures m.kind == Stream && m.streamId == Some(streamId) && m.correlationId == None
    ensures m.payload == RawData(data) && m.from == from && m.to == to
  {
    AgentMessage(from, to, Stream, RawData(data), now, None, Some(streamId))
  }

  /** A list of strings as a JSON array. */
  function StringList(xs: seq<string>): (v: Value)
    ensures v.List? && |v.items| == |xs|
    ensures forall i :: 0 <= i < |xs| ==> v.items[i] == Str(xs[i])
  {
    List(seq(|xs|, i requires 0 <= i < |xs| => Str(xs[i])))
  }

  function StringListOption(xs: Option<seq<string>>): Option<Value> {
    if xs.Some? then Some(StringList(xs.value)) else None
  }

  /** A response to one of our own requests settles it: the id travels out as the
      payload id and correlation id, and a response built for that id by
      `sendResponse` settles exactly that request with the peer's result or error. */
  lemma ResponseSettlesRequest(pending: map<string, Waiter>, streams: map<string, HandlerId>,
                               id: string, peer: string, me: string, result: Option<Value>, error: Option<JsonRpcError>, now: int)
    requires id != "" && id in pending
    ensures var d := Route(pending, streams, ResponseEnvelope(peer, me, StrId(id), result, error, now));
      d.Settled? && d.id == id &&
      (error.Some? ==> d.settlement == Rejected(A2AError(error.value.code, error.value.message, error.value.data))) &&
      (error.None? && pending[id].Caller? ==> d.settlement == Resolved(result.GetOr(Null))) &&
      (error.None? && pending[id].StreamCreate? ==> d.settlement == Resolved(Str(pending[id].streamId)))
  {
  }

  /** Once a request has settled its id is gone, so a second response with the same
      id is dropped. */
  lemma SecondResponseDropped(pending: map<string, Waiter>, streams: map<string, HandlerId>, first: AgentMessage, second: AgentMessage)
    requires Route(pending, streams, first).Settled?
    requires second.kind == Response && second.correlationId == first.correlationId
    ensures Route(pending - {Route(pending, streams, first).id}, streams, second) == Dropped
  {
  }

  /** The correlation engine of one agent. `pending` holds the requests still
      waiting, `streams` the stream callbacks, `outbox` every envelope sent, and
      `settled` how each settled request ended, in order. */
  class A2AProtocol {
    const agentId: string
    var pending: map<string, Waiter>
    var streams: map<string, HandlerId>
    var outbox: seq<AgentMessage>
    var settled: seq<(string, Settlement)>

    constructor (agentId: string)
      ensures this.agentId == agentId
      ensures pending == map[] && streams == map[] && outbox == [] && settled == []
    {
      this.agentId := agentId;
      pending := map[];
      streams := map[];
      outbox := [];
      settled := [];
    }

    /** Sends a request under the fresh id `id` and records who waits for it. */
    method Await(id: string, to: string, methodName: string, params: Option<Value>, w: Waiter, now: int)
      requires id != "" && id !in pending
      modifies this
      ensures pending == old(pending)[id := w]
      ensures outbox == old(outbox) + [RequestEnvelope(agentId, to, id, methodName, params, now)]
      ensures streams == old(streams) && settled == old(settled)
    {
      pending := pending[id := w];
      outbox := outbox + [RequestEnvelope(agentId, to, id, methodName, params, now)];
    }

    /** `sendRequest`: one new pending entry and one request envelope whose
        correlation id is the payload's id. The random id is a parameter. */
    method SendRequest(id: string, to: string, methodName: string, params: Option<Value>, now: int)
      requires id != "" && id !in pending
      modifies this
      ensures pending == old(pending)[id := Caller]
      ensures outbox == old(outbox) + [RequestEnvelope(agentId, to, id, methodName, params, now)]
      ensures streams == old(streams) && settled == old(settled)
    {
      Await(id, to, methodName, params, Caller, now);
    }

    /** The 30-second timer of request `id` firing: a request still waiting is
        removed and rejected with "Request timeout"; a settled one is left alone. */
    method Expire(id: string) returns (fired: bool)
      modifies this
      ensures fired <==> id in old(pending)
      ensures pending == old(pending) - {id}
      ensures settled == if fired then old(settled) + [(id, Rejected(PlainError(TIMEOUT_MESSAGE)))] else old(settled)
      ensures streams == old(streams) && outbox == old(outbox)
    {
      fired := id in pending;
      if fired {
        pending := pending - {id};
        settled := settled + [(id, Rejected(PlainError(TIMEOUT_MESSAGE)))];
      }
    }

    /** `sendNotification`: one notification envelope; no table changes. */
    method SendNotification(to: string, methodName: string, params: Option<Value>, now: int)
      modifies this
      ensures outbox == old(outbox) + [NotificationEnvelope(agentId, to, methodName, params, now)]
      ensures pending == old(pending) && streams == old(streams) && settled == old(settled)
    {
      outbox := outbox + [NotificationEnvelope(agentId, to, methodName, params, now)];
    }

    /** `sendResponse`: one response envelope; no table changes. */
    method SendResponse(to: string, id: RpcId, result: Option<Value>, error: Option<JsonRpcError>, now: int)
      modifies this
      ensures outbox == old(outbox) + [ResponseEnvelope(agentId, to, id, result, error, now)]
      ensures pending == old(pending) && streams == old(streams) && settled == old(settled)
    {
      outbox := outbox + [ResponseEnvelope(agentId, to, id, result, error, now)];
    }

    /** `createStream`: a `stream/create` request carrying the new stream id; the
        caller receives the stream id only when that request resolves. */
    method CreateStream(requestId: string, streamId: string, to: string, methodName: string, params: Option<Value>, now: int)
      requires requestId != "" && requestId !in pending
      modifies this
      ensures pending == old(pending)[requestId := StreamCreate(streamId)]
      ensures outbox == old(outbox) + [RequestEnvelope(agentId, to, requestId, "stream/create",
        Some(Object(WithOptional(map["stream_id" := Str(streamId), "method" := Str(methodName)], "params", params))), now)]
      ensures streams == old(streams) && settled == old(settled)
    {
      var fields := WithOptional(map["stream_id" := Str(streamId), "method" := Str(methodName)], "params", params);
      Await(requestId, to, "stream/create", Some(Object(fields)), StreamCreate(streamId), now);
    }

    /** `sendStreamData`: one stream envelope; no table changes. */
    method SendStreamData(to: string, streamId: string, data: Value, now: int)
      modifies this
      ensures outbox == old(outbox) + [StreamEnvelope(agentId, to, streamId, data, now)]
      ensures pending == old(pending) && streams == old(streams) && settled == old(settled)
    {
      outbox := outbox + [StreamEnvelope(agentId, to, streamId, data, now)];
    }

    /** `closeStream`: a `stream/close` request; the local stream callback stays
        registered. */
    method CloseStream(requestId: string, to: string, streamId: string, now: int)
      requires requestId != "" && requestId !in pending
      modifies this
      ensures pending == old(pending)[requestId := Caller]
      ensures outbox == old(outbox) + [RequestEnvelope(agentId, to, requestId, "stream/close",
        Some(Object(map["stream_id" := Str(streamId)])), now)]
      ensures streams == old(streams) && settled == old(settled)
    {
      SendRequest(requestId, to, "stream/close", Some(Object(map["stream_id" := Str(streamId)])), now);
    }

    /** `onStream`: the last registration for a stream id wins. */
    method OnStream(streamId: string, handler: HandlerId)
      modifies this
      ensures streams == old(streams)[streamId := handler]
      ensures pending == old(pending) && outbox == old(outbox) && settled == old(settled)
    {
      streams := streams[streamId := handler];
    }

    /** `discoverAgents`: an `agent/discover` request to the registry. */
    method DiscoverAgents(id: string, capabilities: Option<seq<string>>, modalities: Option<seq<string>>, now: int)
      requires id != "" && id !in pending
      modifies this
      ensures pending == old(pending)[id := Caller]
      ensures outbox == old(outbox) + [RequestEnvelope(agentId, "registry", id, "agent/discover",
        Some(Object(WithOptional(WithOptional(map[], "capabilities", StringListOption(capabilities)), "modalities", StringListOption(modalities)))), now)]
      ensures streams == old(streams) && settled == old(settled)
    {
      var fields := WithOptional(WithOptional(map[], "capabilities", StringListOption(capabilities)), "modalities", StringListOption(modalities));
      SendRequest(id, "registry", "agent/discover", Some(Object(fields)), now);
    }

    /** `getAgentCapabilities`: an `agent/capabilities` request without params. */
    method GetAgentCapabilities(id: string, target: string, now: int)
      requires id != "" && id !in pending
      modifies this
      ensures pending == old(pending)[id := Caller]
      ensures outbox == old(outbox) + [RequestEnvelope(agentId, target, id, "agent/capabilities", None, now)]
      ensures streams == old(streams) && settled == old(settled)
    {
      SendRequest(id, target, "agent/capabilities", None, now);
    }

    /** `querySkill`: an `agent/query-skill` request for one skill name. */
    method QuerySkill(id: string, target: string, skill: string, now: int)
      requires id != "" && id !in pending
      modifies this
      ensures pending == old(pending)[id := Caller]
      ensures outbox == old(outbox) + [RequestEnvelope(agentId, target, id, "agent/query-skill",
        Some(Object(map["skill" := Str(skill)])), now)]
      ensures streams == old(streams) && settled == old(settled)
    {
      SendRequest(id, target, "agent/query-skill", Some(Object(map["skill" := Str(skill)])), now);
    }

    /** `handleMessage`: a settling response removes its entry and logs how it
        settled; nothing else changes either table, and nothing is sent. */
    method HandleMessage(msg: AgentMessage) returns (d: Delivery)
      modifies this
      ensures d == Route(old(pending), old(streams), msg)
      ensures pending == if d.Settled? then old(pending) - {d.id} else old(pending)
      ensures settled == if d.Settled? then old(settled) + [(d.id, d.settlement)] else old(settled)
      ensures streams == old(streams) && outbox == old(outbox)
    {
      d := Route(pending, streams, msg);
      if d.Settled? {
        pending := pending - {d.id};
        settled := settled + [(d.id, d.settlement)];
      }
    }
  }
}
