/** The shared data model of the agent platform: agent cards, capabilities,
    JSON-RPC 2.0 shaped payloads and the message envelope (src/types/index.ts). */
module Types {

  datatype Option<+T> = None | Some(value: T) {
    function GetOr(default: T): T {
      match this
      case Some(v) => v
      case None => default
    }
  }

  /** JavaScript truthiness of an optional string: absent and "" are both falsy. */
  predicate Present(s: Option<string>) {
    s.Some? && s.value != ""
  }

  datatype HealthStatus = Healthy | Degraded | Unhealthy | Unknown

  function HealthName(h: HealthStatus): string {
    match h
    case Healthy => "healthy"
    case Degraded => "degraded"
    case Unhealthy => "unhealthy"
    case Unknown => "unknown"
  }

  datatype Modality = Text | Audio | Video | Image | File | Form

  function ModalityName(m: Modality): string {
    match m
    case Text => "text"
    case Audio => "audio"
    case Video => "video"
    case Image => "image"
    case File => "file"
    case Form => "form"
  }

  /** The three declared endpoint kinds; a declarative spec may carry any other tag. */
  datatype EndpointType = Http | WebSocket | Grpc | OtherType(tag: string)

  datatype AgentEndpoint = AgentEndpoint(kind: EndpointType, url: string, methods: seq<string>, authRequired: bool)

  datatype AuthType = Bearer | ApiKey | OAuth2 | NoAuth

  datatype AuthenticationInfo = AuthenticationInfo(
    kind: AuthType,
    scheme: Option<string>,
    bearerFormat: Option<string>,
    scopes: Option<seq<string>>)

  /** A JSON value as it travels in a payload (`any` in the source). `Null` stands
      for both `null` and `undefined`; an object field holding `undefined` is an
      absent key. Agent cards and capabilities travel as themselves. */
  datatype Value =
    | Null
    | Bool(b: bool)
    | Int(i: int)
    | Str(s: string)
    | List(items: seq<Value>)
    | Object(fields: map<string, Value>)
    | Card(card: AgentCard)
    | Capability(capability: AgentCapability)

  datatype AgentCapability = AgentCapability(
    id: string,
    name: string,
    description: string,
    inputSchema: Value,
    outputSchema: Value,
    modalities: seq<Modality>,
    isAsync: bool,
    streaming: bool)

  /** Timestamps (`created`, `updated`) are milliseconds since the epoch. */
  datatype AgentCard = AgentCard(
    id: string,
    name: string,
    version: string,
    description: string,
    capabilities: seq<AgentCapability>,
    endpoints: seq<AgentEndpoint>,
    authentication: AuthenticationInfo,
    metadata: map<string, Value>,
    health: HealthStatus,
    created: int,
    updated: int)

  /** A JSON-RPC id is a string or a number. */
  datatype RpcId = StrId(s: string) | NumId(n: int)

  datatype JsonRpcError = JsonRpcError(code: int, message: string, data: Option<Value>)

  /** A response carries a result or an error, never both (JSON-RPC 2.0 section 5). */
  datatype RpcOutcome = RpcResult(result: Value) | RpcError(error: JsonRpcError)

  /** The payload shapes: a request has an id, a notification has none
      (JSON-RPC 2.0 section 4.1); stream frames carry raw data. */
  datatype Payload =
    | RpcRequest(methodName: string, params: Option<Value>, id: RpcId)
    | RpcResponse(responseId: Option<RpcId>, outcome: RpcOutcome)
    | RpcNotification(methodName: string, params: Option<Value>)
    | RawData(data: Value)

  datatype MessageKind = Request | Response | Notification | Stream

  /** The envelope exchanged between agents; `timestamp` is milliseconds. */
  datatype AgentMessage = AgentMessage(
    from: string,
    to: string,
    kind: MessageKind,
    payload: Payload,
    timestamp: int,
    correlationId: Option<string>,
    streamId: Option<string>)

  datatype DiscoveryRequest = DiscoveryRequest(
    capabilities: Option<seq<string>>,
    modalities: Option<seq<string>>,
    location: Option<string>)

  datatype DiscoveryResponse = DiscoveryResponse(agents: seq<AgentCard>, total: nat, page: nat, perPage: nat)

  datatype ClusterInfo = ClusterInfo(
    id: string,
    name: string,
    region: string,
    endpoints: seq<string>,
    health: HealthStatus,
    agents: int,
    lastSeen: int)

  /** What a JavaScript `throw` delivers: an `Error` with its message, or any other value. */
  datatype Thrown = ErrorThrown(message: string) | NonErrorThrown

  /** The message a `catch` reports: `error instanceof Error ? error.message : 'Internal error'`. */
  function ThrownMessage(t: Thrown): (m: string)
    ensures t.ErrorThrown? ==> m == t.message
    ensures t.NonErrorThrown? ==> m == "Internal error"
  {
    match t
    case ErrorThrown(msg) => msg
    case NonErrorThrown => "Internal error"
  }

  // Field access on a payload, as `payload.id`, `payload.method` and `payload.params` read it.

  function IdOfValue(v: Value): Option<RpcId> {
    match v
    case Str(s) => Some(StrId(s))
    case Int(n) => Some(NumId(n))
    case _ => None
  }

  function PayloadId(p: Payload): Option<RpcId> {
    match p
    case RpcRequest(_, _, id) => Some(id)
    case RpcResponse(id, _) => id
    case RpcNotification(_, _) => None
    case RawData(v) => if v.Object? && "id" in v.fields then IdOfValue(v.fields["id"]) else None
  }

  function PayloadMethod(p: Payload): Option<string> {
    match p
    case RpcRequest(m, _, _) => Some(m)
    case RpcResponse(_, _) => None
    case RpcNotification(m, _) => Some(m)
    case RawData(v) =>
      if v.Object? && "method" in v.fields && v.fields["method"].Str? then Some(v.fields["method"].s) else None
  }

  function PayloadParams(p: Payload): Option<Value> {
    match p
    case RpcRequest(_, params, _) => params
    case RpcResponse(_, _) => None
    case RpcNotification(_, params) => params
    case RawData(v) => if v.Object? && "params" in v.fields then Some(v.fields["params"]) else None
  }

  /** `{...fields, key: value}` where an undefined value leaves the key out. */
  function WithOptional(fields: map<string, Value>, key: string, value: Option<Value>): map<string, Value> {
    if value.Some? then fields[key := value.value] else fields
  }
}
