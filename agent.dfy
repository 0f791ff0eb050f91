/** The agent runtime (src/agents/base-agent.ts): a capability table, a handler
    table holding four built-in handlers plus one per added capability, the
    request dispatch that answers every inbound request with exactly one
    response, and the start/stop sequence around registry registration. */
module Agents {
  import opened Types
  import opened Strings
  import opened OrderedMaps
  import opened Protocol

  /** The four handlers every agent installs at construction. */
  datatype Builtin = CapabilitiesQuery | StatusQuery | HealthQuery | SkillQuery

  /** A request handler: a built-in, or the opaque handler of an added capability. */
  datatype Handler = Builtin(which: Builtin) | Custom(id: HandlerId)

  /** How running a handler ended: a returned value or a throw. */
  datatype HandlerOutcome = Returned(value: Value) | Threw(thrown: Thrown)

  /** `setupDefaultHandlers`. */
  function DefaultHandlers(): (h: map<string, Handler>)
    ensures h.Keys == {"agent/capabilities", "agent/status", "agent/health", "agent/query-skill"}
    ensures forall m :: m in h ==> h[m].Builtin?
  {
    map["agent/capabilities" := Builtin(CapabilitiesQuery),
        "agent/status" := Builtin(StatusQuery),
        "agent/health" := Builtin(HealthQuery),
        "agent/query-skill" := Builtin(SkillQuery)]
  }

  const SKILL_NOT_CALLABLE := "skill?.toLowerCase is not a function"

  /** `const { skill } = params || {}`: the `skill` field of an object, and
      `undefined` for anything else. */
  function SkillOf(params: Option<Value>): Value {
    if params.Some? && params.value.Object? && "skill" in params.value.fields then params.value.fields["skill"] else Null
  }

  /** The position of the first capability whose name equals `skill` ignoring case. */
  function FindSkill(caps: seq<AgentCapability>, skill: string): (r: Option<nat>)
    ensures r.Some? ==> r.value < |caps| && Lower(caps[r.value].name) == Lower(skill)
    ensures r.Some? ==> forall j :: 0 <= j < r.value ==> Lower(caps[j].name) != Lower(skill)
    ensures r.None? ==> forall j :: 0 <= j < |caps| ==> Lower(caps[j].name) != Lower(skill)
    decreases |caps|
  {
    if caps == [] then None
    else if Lower(caps[0].name) == Lower(skill) then Some(0)
    else
      var rest := FindSkill(caps[1..], skill);
      if rest.Some? then Some(rest.value + 1) else None
  }

  function SkillAnswer(found: Option<AgentCapability>): Value {
    Object(map["available" := Bool(found.Some?), "capability" := if found.Some? then Capability(found.value) else Null])
  }

  /** The `agent/query-skill` handler over the capability table's values. The
      `find` callback only runs when there is a capability to test, so a skill
      that is neither a string nor absent throws only then. */
  function QuerySkill(caps: seq<AgentCapability>, params: Option<Value>): (r: HandlerOutcome)
    ensures r.Threw? <==> caps != [] && !SkillOf(params).Str? && !SkillOf(params).Null?
    ensures r.Threw? ==> r.thrown == ErrorThrown(SKILL_NOT_CALLABLE)
    ensures r.Returned? ==> r.value.Object? && "available" in r.value.fields && "capability" in r.value.fields
    ensures r.Returned? ==>
      (r.value.fields["available"] == Bool(true) <==>
        SkillOf(params).Str? && exists i :: 0 <= i < |caps| && Lower(caps[i].name) == Lower(SkillOf(params).s))
    ensures r.Returned? && r.value.fields["available"] == Bool(true) ==>
      r.value.fields["capability"].Capability? && r.value.fields["capability"].capability in caps &&
      Lower(r.value.fields["capability"].capability.name) == Lower(SkillOf(params).s)
    ensures r.Returned? && r.value.fields["available"] != Bool(true) ==>
      r.value.fields == map["available" := Bool(false), "capability" := Null]
    ensures r.Returned? && SkillOf(params).Str? && FindSkill(caps, SkillOf(params).s).Some? ==>
      r.value.fields["capability"] == Capability(caps[FindSkill(caps, SkillOf(params).s).value])
  {
    var skill := SkillOf(params);
    if caps == [] then Returned(SkillAnswer(None))
    else match skill
      case Str(s) =>
        var f := FindSkill(caps, s);
        Returned(SkillAnswer(if f.Some? then Some(caps[f.value]) else None))
      case Null => Returned(SkillAnswer(None))
      case _ => Threw(ErrorThrown(SKILL_NOT_CALLABLE))
  }

  /** What running handler `h` gives. The built-ins read the current card and
      capability table; an added capability's handler is opaque, and `custom` is
      how it ended. The ISO timestamp of `agent/health` is the millisecond time. */
  function Run(h: Handler, card: AgentCard, caps: seq<AgentCapability>, params: Option<Value>, custom: HandlerOutcome, now: int): (r: HandlerOutcome)
    ensures h.Custom? ==> r == custom
    ensures h == Builtin(StatusQuery) ==> r == Returned(Card(card))
    ensures h.Builtin? && h.which != SkillQuery ==> r.Returned?
  {
    match h
    case Custom(_) => custom
    case Builtin(CapabilitiesQuery) =>
      Returned(Object(map["agent" := Str(card.name),
                          "capabilities" := List(seq(|caps|, i requires 0 <= i < |caps| => Capability(caps[i])))]))
    case Builtin(StatusQuery) => Returned(Card(card))
    case Builtin(HealthQuery) => Returned(Object(map["health" := Str(HealthName(card.health)), "timestamp" := Int(now)]))
    case Builtin(SkillQuery) => QuerySkill(caps, params)
  }

  /** The error of a request no handler takes: -32601 with the method name as data
      (`{method: undefined}` when the request names none). */
  function NotFound(methodName: Option<string>): JsonRpcError {
    JsonRpcError(METHOD_NOT_FOUND, "Method not found",
                 Some(Object(if methodName.Some? then map["method" := Str(methodName.value)] else map[])))
  }

  /** The error of a handler that threw: -32603 with the thrown Error's message. */
  function Failure(t: Thrown): JsonRpcError {
    JsonRpcError(INTERNAL_ERROR, ThrownMessage(t), None)
  }

  /** `handleRequest`'s answer: the handler's result, -32601 when there is no
      handler, -32603 when it threw. */
  function Answer(handlers: map<string, Handler>, card: AgentCard, caps: seq<AgentCapability>,
                  request: Payload, custom: HandlerOutcome, now: int): (o: RpcOutcome)
    ensures o.RpcError? && o.error.code == METHOD_NOT_FOUND <==>
      PayloadMethod(request).None? || PayloadMethod(request).value !in handlers
    ensures o.RpcError? && o.error.code == METHOD_NOT_FOUND ==> o.error == NotFound(PayloadMethod(request))
    ensures o.RpcError? && o.error.code != METHOD_NOT_FOUND ==> o.error.code == INTERNAL_ERROR && o.error.data == None
    ensures o.RpcResult? ==> PayloadMethod(request).Some? && PayloadMethod(request).value in handlers
    ensures PayloadMethod(request).Some? && PayloadMethod(request).value in handlers ==>
      var ran := Run(handlers[PayloadMethod(request).value], card, caps, PayloadParams(request), custom, now);
      o == (if ran.Returned? then RpcResult(ran.value) else RpcError(Failure(ran.thrown)))
  {
    var m := PayloadMethod(request);
    if m.None? || m.value !in handlers then RpcError(NotFound(m))
    else match Run(handlers[m.value], card, caps, PayloadParams(request), custom, now)
      case Returned(v) => RpcResult(v)
      case Threw(t) => RpcError(Failure(t))
  }

  /** The response envelope carrying an outcome. */
  function OutcomeEnvelope(from: string, to: string, id: RpcId, o: RpcOutcome, now: int): (m: AgentMessage)
    ensures m.kind == Response && m.from == from && m.to == to
    ensures m.payload == RpcResponse(Some(id), o) && m.correlationId == Some(IdText(id))
  {
    ResponseEnvelope(from, to, id, if o.RpcResult? then Some(o.result) else None, if o.RpcError? then Some(o.error) else None, now)
  }

  /** The envelopes `handleRequest` sends: exactly one response to the requester,
      with the request's id. Without an id, `id.toString()` throws in both the
      normal and the error path, so nothing is sent. */
  function Replies(handlers: map<string, Handler>, card: AgentCard, caps: seq<AgentCapability>,
                   request: Payload, from: string, custom: HandlerOutcome, now: int): (out: seq<AgentMessage>)
    ensures |out| == if PayloadId(request).Some? then 1 else 0
    ensures |out| == 1 ==> out[0].kind == Response && out[0].from == card.id && out[0].to == from
    ensures |out| == 1 ==> out[0].payload == RpcResponse(PayloadId(request), Answer(handlers, card, caps, request, custom, now))
  {
    var id := PayloadId(request);
    if id.None? then []
    else [OutcomeEnvelope(card.id, from, id.value, Answer(handlers, card, caps, request, custom, now), now)]
  }

  /** Round trip through a peer that has no handler for the method: the peer's
      answer to our request rejects our waiting call with -32601, carrying the
      method name. */
  lemma UnknownMethodRejectsCaller(pending: map<string, Waiter>, streams: map<string, HandlerId>,
                                   handlers: map<string, Handler>, card: AgentCard, caps: seq<AgentCapability>,
                                   me: string, id: string, m: string, params: Option<Value>, custom: HandlerOutcome, t: int, now: int)
    requires id != "" && id in pending && m !in handlers
    ensures var request := RequestEnvelope(me, card.id, id, m, params, t);
      var replies := Replies(handlers, card, caps, request.payload, me, custom, now);
      |replies| == 1 &&
      Route(pending, streams, replies[0]) == Settled(id, Rejected(A2AError(METHOD_NOT_FOUND, "Method not found", Some(Object(map["method" := Str(m)])))))
  {
    var request := RequestEnvelope(me, card.id, id, m, params, t);
    var replies := Replies(handlers, card, caps, request.payload, me, custom, now);
    assert replies[0].correlationId == Some(id);
  }

  /** Round trip through a peer whose handler returns: our plain call resolves
      with exactly the value the peer's handler returned. */
  lemma HandledRequestResolvesCaller(pending: map<string, Waiter>, streams: map<string, HandlerId>,
                                     handlers: map<string, Handler>, card: AgentCard, caps: seq<AgentCapability>,
                                     me: string, id: string, m: string, params: Option<Value>, custom: HandlerOutcome, t: int, now: int)
    requires id != "" && id in pending && pending[id] == Caller && m in handlers
    requires Run(handlers[m], card, caps, params, custom, now).Returned?
    ensures var request := RequestEnvelope(me, card.id, id, m, params, t);
      var replies := Replies(handlers, card, caps, request.payload, me, custom, now);
      |replies| == 1 &&
      Route(pending, streams, replies[0]) == Settled(id, Resolved(Run(handlers[m], card, caps, params, custom, now).value))
  {
    var request := RequestEnvelope(me, card.id, id, m, params, t);
    var replies := Replies(handlers, card, caps, request.payload, me, custom, now);
    assert replies[0].correlationId == Some(id);
  }

  /** Lower-casing twice is lower-casing once. */
  lemma LowerIdempotent(s: string)
    ensures Lower(Lower(s)) == Lower(s)
  {
  }

  /** The skill lookup ignores case: asking for a name in any capitalisation finds
      the same capability. */
  lemma {:induction false} FindSkillIgnoresCase(caps: seq<AgentCapability>, skill: string)
    ensures FindSkill(caps, skill) == FindSkill(caps, Lower(skill))
    decreases |caps|
  {
    LowerIdempotent(skill);
    if caps != [] {
      FindSkillIgnoresCase(caps[1..], skill);
    }
  }

  /** `card.capabilities.filter(c => c.id !== id)`. */
  function WithoutCapability(caps: seq<AgentCapability>, id: string): (r: seq<AgentCapability>)
    ensures forall c :: c in r <==> c in caps && c.id != id
    ensures |r| <= |caps|
    decreases |caps|
  {
    if caps == [] then []
    else if caps[0].id == id then WithoutCapability(caps[1..], id)
    else [caps[0]] + WithoutCapability(caps[1..], id)
  }

  /** Each surviving capability keeps its multiplicity; the removed id keeps none. */
  lemma {:induction false} WithoutCapabilityCounts(caps: seq<AgentCapability>, id: string, c: AgentCapability)
    ensures multiset(WithoutCapability(caps, id))[c] == if c.id == id then 0 else multiset(caps)[c]
    decreases |caps|
  {
    if caps != [] {
      assert caps == [caps[0]] + caps[1..];
      WithoutCapabilityCounts(caps[1..], id, c);
    }
  }

  /** Filtering a list is filtering its two halves: the surviving capabilities
      keep their relative order. */
  lemma {:induction false} WithoutCapabilityAppend(a: seq<AgentCapability>, b: seq<AgentCapability>, id: string)
    ensures WithoutCapability(a + b, id) == WithoutCapability(a, id) + WithoutCapability(b, id)
    decreases |a|
  {
    if a == [] {
      assert a + b == b;
    } else {
      assert (a + b)[1..] == a[1..] + b;
      WithoutCapabilityAppend(a[1..], b, id);
    }
  }

  /** Filtering keeps the surviving capabilities in their order. */
  lemma {:induction false} WithoutCapabilityKeepsOthers(caps: seq<AgentCapability>, id: string)
    requires forall i :: 0 <= i < |caps| ==> caps[i].id != id
    ensures WithoutCapability(caps, id) == caps
    decreases |caps|
  {
    if caps != [] {
      WithoutCapabilityKeepsOthers(caps[1..], id);
    }
  }

  /** The three tables an added capability touches. */
  datatype Tables = Tables(capabilities: OrderedMap<string, AgentCapability>, handlers: map<string, Handler>, listed: seq<AgentCapability>)

  /** `addCapability(c, h)`: set in both maps, overwriting any earlier entry
      (a built-in included), and push onto the card's list even when the id is
      already listed. */
  function Added(t: Tables, c: AgentCapability, h: HandlerId): (r: Tables)
    requires t.capabilities.Valid()
    ensures r.capabilities.Valid()
    ensures r.capabilities.entries == t.capabilities.entries[c.id := c]
    ensures r.handlers == t.handlers[c.id := Custom(h)]
    ensures r.listed == t.listed + [c]
  {
    Tables(t.capabilities.Put(c.id, c), t.handlers[c.id := Custom(h)], t.listed + [c])
  }

  /** The tables after adding each (capability, handler) pair in turn. */
  function AddedAll(t: Tables, setup: seq<(AgentCapability, HandlerId)>): (r: Tables)
    requires t.capabilities.Valid()
    ensures r.capabilities.Valid()
    decreases |setup|
  {
    if setup == [] then t
    else
      var last := setup[|setup| - 1];
      Added(AddedAll(t, setup[..|setup| - 1]), last.0, last.1)
  }

  /** After a setup, the card lists every set-up capability after the ones it
      already had, in setup order. */
  lemma {:induction false} AddedAllListed(t: Tables, setup: seq<(AgentCapability, HandlerId)>)
    requires t.capabilities.Valid()
    ensures |AddedAll(t, setup).listed| == |t.listed| + |setup|
    ensures AddedAll(t, setup).listed[..|t.listed|] == t.listed
    ensures forall i :: 0 <= i < |setup| ==> AddedAll(t, setup).listed[|t.listed| + i] == setup[i].0
    decreases |setup|
  {
    if setup != [] {
      var init := setup[..|setup| - 1];
      AddedAllListed(t, init);
      forall i | 0 <= i < |setup| - 1 ensures AddedAll(t, setup).listed[|t.listed| + i] == setup[i].0 {
        assert init[i] == setup[i];
      }
    }
  }

  /** After a setup, the handler of a set-up id is the one of its last setup entry,
      whatever held that id before (a built-in included). */
  lemma {:induction false} AddedAllHandler(t: Tables, setup: seq<(AgentCapability, HandlerId)>, i: nat)
    requires t.capabilities.Valid()
    requires i < |setup| && forall j :: i < j < |setup| ==> setup[j].0.id != setup[i].0.id
    ensures setup[i].0.id in AddedAll(t, setup).handlers
    ensures AddedAll(t, setup).handlers[setup[i].0.id] == Custom(setup[i].1)
    decreases |setup|
  {
    var init := setup[..|setup| - 1];
    if i < |setup| - 1 {
      assert init[i] == setup[i];
      forall j | i < j < |init| ensures init[j].0.id != init[i].0.id {
        assert init[j] == setup[j];
      }
      AddedAllHandler(t, init, i);
    }
  }

  /** A setup adds handlers only under the set-up ids. */
  lemma {:induction false} AddedAllHandlerKeys(t: Tables, setup: seq<(AgentCapability, HandlerId)>)
    requires t.capabilities.Valid()
    ensures forall k :: k in AddedAll(t, setup).handlers <==> k in t.handlers || exists i :: 0 <= i < |setup| && setup[i].0.id == k
    decreases |setup|
  {
    if setup != [] {
      var init := setup[..|setup| - 1];
      AddedAllHandlerKeys(t, init);
      forall k | k in AddedAll(t, setup).handlers
        ensures k in t.handlers || exists i :: 0 <= i < |setup| && setup[i].0.id == k
      {
        if k != setup[|setup| - 1].0.id && k !in t.handlers {
          var i :| 0 <= i < |init| && init[i].0.id == k;
          assert setup[i] == init[i];
        }
      }
      forall k | k in t.handlers || exists i :: 0 <= i < |setup| && setup[i].0.id == k
        ensures k in AddedAll(t, setup).handlers
      {
        if k !in t.handlers && k != setup[|setup| - 1].0.id {
          var i :| 0 <= i < |setup| && setup[i].0.id == k;
          assert init[i] == setup[i];
        }
      }
    }
  }

  /** Where `start` and `stop` are suspended. `start` awaits the registration
      request before attaching its message listener, and `stop` awaits the
      unregistration request. */
  datatype Lifecycle = Created | Registering(registration: string) | Started | Unregistering(unregistration: string) | Stopped

  datatype AgentEvent = StartedEvent | StoppedEvent | HealthChanged(status: HealthStatus) | NotificationReceived(notification: Payload, sender: string)

  class BaseAgent {
    var card: AgentCard
    var capabilities: OrderedMap<string, AgentCapability>
    var handlers: map<string, Handler>
    const protocol: A2AProtocol
    var lifecycle: Lifecycle
    /** Whether the transport's message listener is attached. */
    var listening: bool
    var events: seq<AgentEvent>

    ghost predicate Valid()
      reads this
    {
      capabilities.Valid() && protocol.agentId == card.id
    }

    function CurrentTables(): Tables
      reads this
    {
      Tables(capabilities, handlers, card.capabilities)
    }

    constructor (card: AgentCard)
      ensures Valid() && fresh(protocol)
      ensures this.card == card && capabilities == Empty() && handlers == DefaultHandlers()
      ensures protocol.pending == map[] && protocol.streams == map[] && protocol.outbox == []
      ensures lifecycle == Created && !listening && events == []
    {
      this.card := card;
      protocol := new A2AProtocol(card.id);
      capabilities := Empty();
      handlers := DefaultHandlers();
      lifecycle := Created;
      listening := false;
      events := [];
    }

    /** `addCapability`. */
    method AddCapability(c: AgentCapability, h: HandlerId)
      requires Valid()
      modifies this
      ensures Valid()
      ensures CurrentTables() == Added(old(CurrentTables()), c, h)
      ensures card == old(card).(capabilities := old(card.capabilities) + [c])
      ensures lifecycle == old(lifecycle) && listening == old(listening) && events == old(events)
    {
      capabilities := capabilities.Put(c.id, c);
      handlers := handlers[c.id := Custom(h)];
      card := card.(capabilities := card.capabilities + [c]);
    }

    /** `removeCapability`: the id leaves both maps (a built-in included) and
        every card entry with that id goes, the others keeping their order. */
    method RemoveCapability(id: string)
      requires Valid()
      modifies this
      ensures Valid()
      ensures capabilities == old(capabilities).Remove(id)
      ensures handlers == old(handlers) - {id}
      ensures card == old(card).(capabilities := WithoutCapability(old(card.capabilities), id))
      ensures lifecycle == old(lifecycle) && listening == old(listening) && events == old(events)
    {
      capabilities := capabilities.Remove(id);
      handlers := handlers - {id};
      card := card.(capabilities := WithoutCapability(card.capabilities, id));
    }

    /** `updateHealth`: only `health` and `updated` change. */
    method UpdateHealth(status: HealthStatus, now: int)
      requires Valid() && status != Unknown
      modifies this
      ensures Valid()
      ensures card == old(card).(health := status, updated := now)
      ensures events == old(events) + [HealthChanged(status)]
      ensures capabilities == old(capabilities) && handlers == old(handlers)
      ensures lifecycle == old(lifecycle) && listening == old(listening)
    {
      card := card.(health := status, updated := now);
      events := events + [HealthChanged(status)];
    }

    /** `getStatus`: a copy of the card. */
    method GetStatus() returns (c: AgentCard)
      ensures c == card
    {
      c := card;
    }

    /** `handleRequest`: exactly one response to the requester, with the request's id. */
    method HandleRequest(request: Payload, from: string, custom: HandlerOutcome, now: int)
      requires Valid()
      modifies protocol
      ensures protocol.outbox == old(protocol.outbox) + Replies(handlers, card, capabilities.Values(), request, from, custom, now)
      ensures protocol.pending == old(protocol.pending) && protocol.streams == old(protocol.streams)
      ensures protocol.settled == old(protocol.settled)
    {
      var id := PayloadId(request);
      if id.Some? {
        var o := Answer(handlers, card, capabilities.Values(), request, custom, now);
        protocol.SendResponse(from, id.value, if o.RpcResult? then Some(o.result) else None, if o.RpcError? then Some(o.error) else None, now);
      }
    }

    /** The transport's message listener. Before `start` has attached it, inbound
        messages are lost. */
    method Receive(msg: AgentMessage, custom: HandlerOutcome, now: int)
      requires Valid()
      modifies this, protocol
      ensures Valid()
      ensures card == old(card) && capabilities == old(capabilities) && handlers == old(handlers)
      ensures lifecycle == old(lifecycle) && listening == old(listening)
      ensures protocol.streams == old(protocol.streams)
      ensures !old(listening) ==>
        protocol.pending == old(protocol.pending) && protocol.settled == old(protocol.settled) &&
        protocol.outbox == old(protocol.outbox) && events == old(events)
      ensures old(listening) ==>
        var d := Route(old(protocol.pending), old(protocol.streams), msg);
        protocol.pending == (if d.Settled? then old(protocol.pending) - {d.id} else old(protocol.pending)) &&
        protocol.settled == (if d.Settled? then old(protocol.settled) + [(d.id, d.settlement)] else old(protocol.settled)) &&
        protocol.outbox == old(protocol.outbox) +
          (if d.InboundRequest? then Replies(handlers, card, capabilities.Values(), d.request, d.sender, custom, now) else []) &&
        events == old(events) + (if d.InboundNotification? then [NotificationReceived(d.notification, d.sender)] else [])
    {
      if listening {
        var d := protocol.HandleMessage(msg);
        if d.InboundRequest? {
          HandleRequest(d.request, d.sender, custom, now);
        } else if d.InboundNotification? {
          events := events + [NotificationReceived(d.notification, d.sender)];
        }
      }
    }

    /** The first half of `start`: `setupCapabilities` adds the concrete agent's
        capabilities, `initialize` runs (opaque here), and the card is sent to the
        registry in an `agent/register` request that `start` then awaits. */
    method Start(setup: seq<(AgentCapability, HandlerId)>, registration: string, now: int)
      requires Valid()
      requires registration != "" && registration !in protocol.pending
      modifies this, protocol
      ensures Valid()
      ensures CurrentTables() == AddedAll(old(CurrentTables()), setup)
      ensures card == old(card).(capabilities := card.capabilities)
      ensures protocol.pending == old(protocol.pending)[registration := Caller]
      ensures protocol.outbox == old(protocol.outbox) + [RequestEnvelope(card.id, "registry", registration, "agent/register", Some(Card(card)), now)]
      ensures protocol.streams == old(protocol.streams) && protocol.settled == old(protocol.settled)
      ensures lifecycle == Registering(registration) && listening == old(listening) && events == old(events)
    {
      var i := 0;
      while i < |setup|
        invariant 0 <= i <= |setup|
        invariant Valid()
        invariant CurrentTables() == AddedAll(old(CurrentTables()), setup[..i])
        invariant card == old(card).(capabilities := card.capabilities)
        invariant lifecycle == old(lifecycle) && listening == old(listening) && events == old(events)
        invariant protocol.pending == old(protocol.pending) && protocol.outbox == old(protocol.outbox)
        invariant protocol.streams == old(protocol.streams) && protocol.settled == old(protocol.settled)
      {
        assert setup[..i + 1][..i] == setup[..i];
        AddCapability(setup[i].0, setup[i].1);
        i := i + 1;
      }
      assert setup[..i] == setup;
      protocol.SendRequest(registration, "registry", "agent/register", Some(Card(card)), now);
      lifecycle := Registering(registration);
    }

    /** The second half of `start`: once the registration request has settled
        (a failure is swallowed), the message listener is attached and `started`
        is emitted. */
    method FinishStart()
      requires Valid() && lifecycle.Registering? && lifecycle.registration !in protocol.pending
      modifies this
      ensures Valid()
      ensures listening && lifecycle == Started && events == old(events) + [StartedEvent]
      ensures card == old(card) && capabilities == old(capabilities) && handlers == old(handlers)
    {
      listening := true;
      lifecycle := Started;
      events := events + [StartedEvent];
    }

    /** The first half of `stop`: `shutdown` runs (opaque here) and an
        `agent/unregister` request for this agent's id is sent and awaited. */
    method Stop(unregistration: string, now: int)
      requires Valid()
      requires unregistration != "" && unregistration !in protocol.pending
      modifies this, protocol
      ensures Valid()
      ensures protocol.pending == old(protocol.pending)[unregistration := Caller]
      ensures protocol.outbox == old(protocol.outbox) +
        [RequestEnvelope(card.id, "registry", unregistration, "agent/unregister", Some(Object(map["agent_id" := Str(card.id)])), now)]
      ensures protocol.streams == old(protocol.streams) && protocol.settled == old(protocol.settled)
      ensures lifecycle == Unregistering(unregistration)
      ensures card == old(card) && capabilities == old(capabilities) && handlers == old(handlers)
      ensures listening == old(listening) && events == old(events)
    {
      protocol.SendRequest(unregistration, "registry", "agent/unregister", Some(Object(map["agent_id" := Str(card.id)])), now);
      lifecycle := Unregistering(unregistration);
    }

    /** The second half of `stop`: once the unregistration has settled (a failure
        is swallowed), `stopped` is emitted. The listener stays attached. */
    method FinishStop()
      requires Valid() && lifecycle.Unregistering? && lifecycle.unregistration !in protocol.pending
      modifies this
      ensures Valid()
      ensures lifecycle == Stopped && events == old(events) + [StoppedEvent]
      ensures listening == old(listening)
      ensures card == old(card) && capabilities == old(capabilities) && handlers == old(handlers)
    {
      lifecycle := Stopped;
      events := events + [StoppedEvent];
    }
  }
}
