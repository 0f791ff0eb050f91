/** The agent registry (src/registry/agent-registry.ts): an insertion-ordered
    membership table of agent cards, a cluster table, one health-check interval
    timer per registered agent, filter-based discovery, a stale sweep and
    statistics. Each timer firing is an explicit tick taking the current time in
    milliseconds. */
module Registry {
  import opened Types
  import opened Strings
  import opened OrderedMaps

  /** Milliseconds of silence after which the simulated probe fails. */
  const PROBE_WINDOW_MS := 300000
  /** Milliseconds of silence after which the sweep marks an agent `unknown`. */
  const STALE_AFTER_MS := 600000
  /** Period of the per-agent health tick and of the sweep. */
  const HEALTH_TICK_MS := 30000
  const SWEEP_PERIOD_MS := 300000

  // ----- Filtering -----

  /** `xs.filter(p)`. */
  function Select<T(!new)>(xs: seq<T>, p: T -> bool): (r: seq<T>)
    ensures |r| <= |xs|
    ensures forall x :: x in r <==> x in xs && p(x)
    decreases |xs|
  {
    if xs == [] then []
    else if p(xs[0]) then [xs[0]] + Select(xs[1..], p)
    else Select(xs[1..], p)
  }

  /** Filtering twice is filtering once by both predicates, order included. */
  lemma {:induction false} SelectAnd<T(!new)>(xs: seq<T>, p: T -> bool, q: T -> bool, both: T -> bool)
    requires forall x :: both(x) == (p(x) && q(x))
    ensures Select(Select(xs, p), q) == Select(xs, both)
    decreases |xs|
  {
    if xs != [] {
      SelectAnd(xs[1..], p, q, both);
      if p(xs[0]) {
        assert Select(xs, p) == [xs[0]] + Select(xs[1..], p);
        assert Select(xs, p)[1..] == Select(xs[1..], p);
      }
    }
  }

  /** A filter whose predicate holds everywhere keeps everything. */
  lemma {:induction false} SelectEverything<T(!new)>(xs: seq<T>, p: T -> bool)
    requires forall x :: p(x)
    ensures Select(xs, p) == xs
    decreases |xs|
  {
    if xs != [] {
      SelectEverything(xs[1..], p);
    }
  }

  // ----- Discovery -----

  /** Some requested value exactly equals a capability id, or is, lower-cased, a
      substring of a capability's lower-cased name. */
  predicate OffersAny(card: AgentCard, wanted: seq<string>) {
    exists w, c :: w in wanted && c in card.capabilities && (Contains(Lower(c.name), Lower(w)) || c.id == w)
  }

  /** Some capability lists some requested modality. */
  predicate SpeaksAny(card: AgentCard, wanted: seq<string>) {
    exists c, m :: c in card.capabilities && m in c.modalities && ModalityName(m) in wanted
  }

  /** `agent.metadata?.cluster === location`. */
  predicate InCluster(card: AgentCard, location: string) {
    "cluster" in card.metadata && card.metadata["cluster"] == Str(location)
  }

  predicate Serving(card: AgentCard) {
    card.health == Healthy || card.health == Degraded
  }

  predicate FiltersCapabilities(req: DiscoveryRequest) {
    req.capabilities.Some? && |req.capabilities.value| > 0
  }

  predicate FiltersModalities(req: DiscoveryRequest) {
    req.modalities.Some? && |req.modalities.value| > 0
  }

  predicate MatchesCapabilities(card: AgentCard, req: DiscoveryRequest) {
    OffersAny(card, req.capabilities.GetOr([]))
  }

  predicate MatchesModalities(card: AgentCard, req: DiscoveryRequest) {
    SpeaksAny(card, req.modalities.GetOr([]))
  }

  predicate MatchesLocation(card: AgentCard, req: DiscoveryRequest) {
    InCluster(card, req.location.GetOr(""))
  }

  /** The discovery criterion, all dimensions at once: every non-empty filter
      holds, and the agent is healthy or degraded. */
  predicate Listed(card: AgentCard, req: DiscoveryRequest) {
    (FiltersCapabilities(req) ==> MatchesCapabilities(card, req)) &&
    (FiltersModalities(req) ==> MatchesModalities(card, req)) &&
    (Present(req.location) ==> MatchesLocation(card, req)) &&
    Serving(card)
  }

  /** One optional filtering step: skipped when inactive. */
  function Step<T(!new)>(xs: seq<T>, active: bool, p: T -> bool): seq<T> {
    if active then Select(xs, p) else xs
  }

  /** Filters by pointwise-equal predicates agree. */
  lemma {:induction false} SelectSame<T(!new)>(xs: seq<T>, p: T -> bool, q: T -> bool)
    requires forall x :: p(x) == q(x)
    ensures Select(xs, p) == Select(xs, q)
    decreases |xs|
  {
    if xs != [] {
      SelectSame(xs[1..], p, q);
    }
  }

  lemma StepIsSelect<T(!new)>(xs: seq<T>, active: bool, p: T -> bool, q: T -> bool)
    requires forall x :: q(x) == (!active || p(x))
    ensures Step(xs, active, p) == Select(xs, q)
  {
    if active {
      SelectSame(xs, p, q);
    } else {
      SelectEverything(xs, q);
    }
  }

  /** Three optional filtering steps and a final filter select exactly what the
      conjunction of the active predicates and the final one selects, in order. */
  lemma ChainIsSelect<T(!new)>(xs: seq<T>, a1: bool, p1: T -> bool, a2: bool, p2: T -> bool, a3: bool, p3: T -> bool,
                               last: T -> bool, all: T -> bool)
    requires forall x :: all(x) == ((!a1 || p1(x)) && (!a2 || p2(x)) && (!a3 || p3(x)) && last(x))
    ensures Select(Step(Step(Step(xs, a1, p1), a2, p2), a3, p3), last) == Select(xs, all)
  {
    var q1 := (x: T) => !a1 || p1(x);
    var q2 := (x: T) => !a2 || p2(x);
    var q3 := (x: T) => !a3 || p3(x);
    var q12 := (x: T) => q1(x) && q2(x);
    var q123 := (x: T) => q12(x) && q3(x);
    StepIsSelect(xs, a1, p1, q1);
    StepIsSelect(Select(xs, q1), a2, p2, q2);
    SelectAnd(xs, q1, q2, q12);
    StepIsSelect(Select(xs, q12), a3, p3, q3);
    SelectAnd(xs, q12, q3, q123);
    SelectAnd(xs, q123, last, all);
  }

  /** `discoverAgents` over the table's values in insertion order: the agents
      meeting the criterion, in table order, all on one page. */
  function Discover(cards: seq<AgentCard>, req: DiscoveryRequest): (r: DiscoveryResponse)
    ensures r.agents == Select(cards, c => Listed(c, req))
    ensures r.total == |r.agents| && r.perPage == |r.agents| && r.page == 1
    ensures forall c :: c in r.agents ==> Serving(c)
  {
    var byCapability := Step(cards, FiltersCapabilities(req), c => MatchesCapabilities(c, req));
    var byModality := Step(byCapability, FiltersModalities(req), c => MatchesModalities(c, req));
    var byLocation := Step(byModality, Present(req.location), c => MatchesLocation(c, req));
    var serving := Select(byLocation, Serving);
    ListedAsChain(cards, req);
    DiscoveryResponse(serving, |serving|, 1, |serving|)
  }

  lemma ListedAsChain(cards: seq<AgentCard>, req: DiscoveryRequest)
    ensures
      var byCapability := Step(cards, FiltersCapabilities(req), c => MatchesCapabilities(c, req));
      var byModality := Step(byCapability, FiltersModalities(req), c => MatchesModalities(c, req));
      var byLocation := Step(byModality, Present(req.location), c => MatchesLocation(c, req));
      Select(byLocation, Serving) == Select(cards, c => Listed(c, req))
  {
    ChainIsSelect(cards, FiltersCapabilities(req), c => MatchesCapabilities(c, req),
                  FiltersModalities(req), c => MatchesModalities(c, req),
                  Present(req.location), c => MatchesLocation(c, req),
                  Serving, c => Listed(c, req));
  }

  /** Discovery lists an agent exactly when it is in the table and meets every
      non-empty filter and is healthy or degraded; an empty request lists every
      serving agent. */
  lemma DiscoverMembership(cards: seq<AgentCard>, req: DiscoveryRequest, c: AgentCard)
    ensures c in Discover(cards, req).agents <==> c in cards && Listed(c, req)
    ensures req == DiscoveryRequest(None, None, None) ==> (c in Discover(cards, req).agents <==> c in cards && Serving(c))
  {
  }

  // ----- Statistics -----

  function HealthIs(h: HealthStatus): AgentCard -> bool {
    (c: AgentCard) => c.health == h
  }

  /** `reduce((sum, a) => sum + a.capabilities.length, 0)`. */
  function CapabilityTotal(cards: seq<AgentCard>): nat
    decreases |cards|
  {
    if cards == [] then 0 else CapabilityTotal(cards[..|cards| - 1]) + |cards[|cards| - 1].capabilities|
  }

  /** The capability total is the sum of the list lengths: it adds up over a
      split of the table, and one agent contributes its own list's length. */
  lemma {:induction false} CapabilityTotalAppend(a: seq<AgentCard>, b: seq<AgentCard>)
    ensures CapabilityTotal(a + b) == CapabilityTotal(a) + CapabilityTotal(b)
    ensures |a| == 1 ==> CapabilityTotal(a) == |a[0].capabilities|
    decreases |b|
  {
    if b == [] {
      assert a + b == a;
    } else {
      assert (a + b)[..|a + b| - 1] == a + b[..|b| - 1];
      CapabilityTotalAppend(a, b[..|b| - 1]);
    }
    if |a| == 1 {
      assert a[..0] == [];
    }
  }

  /** Each health count adds up over a split of the table. */
  lemma {:induction false} HealthCountAppend(a: seq<AgentCard>, b: seq<AgentCard>, h: HealthStatus)
    ensures |Select(a + b, HealthIs(h))| == |Select(a, HealthIs(h))| + |Select(b, HealthIs(h))|
    decreases |a|
  {
    if a == [] {
      assert a + b == b;
    } else {
      assert (a + b)[1..] == a[1..] + b;
      HealthCountAppend(a[1..], b, h);
    }
  }

  datatype Statistics = Statistics(
    totalAgents: nat,
    healthyAgents: nat,
    degradedAgents: nat,
    unhealthyAgents: nat,
    totalClusters: nat,
    totalCapabilities: nat)

  /** `getStatistics`, computed afresh from the table's values. */
  function Stats(cards: seq<AgentCard>, clusterCount: nat): (s: Statistics)
    ensures s.totalAgents == |cards| && s.totalClusters == clusterCount
    ensures s.healthyAgents + s.degradedAgents + s.unhealthyAgents + |Select(cards, HealthIs(Unknown))| == |cards|
    ensures s.healthyAgents + s.degradedAgents + s.unhealthyAgents <= s.totalAgents
    ensures s.healthyAgents == |Select(cards, HealthIs(Healthy))|
    ensures s.degradedAgents == |Select(cards, HealthIs(Degraded))|
    ensures s.unhealthyAgents == |Select(cards, HealthIs(Unhealthy))|
    ensures s.totalCapabilities == CapabilityTotal(cards)
  {
    HealthPartition(cards);
    Statistics(|cards|, |Select(cards, HealthIs(Healthy))|, |Select(cards, HealthIs(Degraded))|,
               |Select(cards, HealthIs(Unhealthy))|, clusterCount, CapabilityTotal(cards))
  }

  /** Every agent has exactly one of the four health values. */
  lemma {:induction false} HealthPartition(cards: seq<AgentCard>)
    ensures |Select(cards, HealthIs(Healthy))| + |Select(cards, HealthIs(Degraded))| +
            |Select(cards, HealthIs(Unhealthy))| + |Select(cards, HealthIs(Unknown))| == |cards|
    decreases |cards|
  {
    if cards != [] {
      HealthPartition(cards[1..]);
    }
  }

  // ----- Registration, health ticks and the sweep -----

  /** The card stored by `registerAgent`. A known id keeps the incoming card's
      `created` and `health` and only gets `updated = now`; a new id gets
      `created = updated = now` and `healthy`. */
  function Admitted(known: bool, card: AgentCard, now: int): (r: AgentCard)
    ensures r.id == card.id && r.capabilities == card.capabilities && r.endpoints == card.endpoints
    ensures r.metadata == card.metadata && r.updated == now
    ensures known ==> r.created == card.created && r.health == card.health
    ensures r.(created := card.created, updated := card.updated, health := card.health) == card
    ensures !known ==> r.created == now && r.health == Healthy
  {
    if known then card.(updated := now) else card.(created := now, updated := now, health := Healthy)
  }

  /** Re-registering replaces the stored card outright: the first registration's
      `created` is lost whenever the incoming card carries another one. */
  lemma ReRegistrationLosesCreated(stored: AgentCard, incoming: AgentCard, now: int)
    requires incoming.created != stored.created
    ensures Admitted(true, incoming, now).created != stored.created
  {
  }

  /** `performHealthCheck`: without an http endpoint the agent is healthy;
      otherwise it is healthy when updated less than five minutes ago. */
  function Probe(card: AgentCard, now: int): (ok: bool)
    ensures ok <==> (forall i :: 0 <= i < |card.endpoints| ==> card.endpoints[i].kind != Http) || now - card.updated < PROBE_WINDOW_MS
  {
    HasHttp(card.endpoints) ==> now - card.updated < PROBE_WINDOW_MS
  }

  /** `endpoints.find(e => e.type === 'http')` is found. */
  function HasHttp(endpoints: seq<AgentEndpoint>): (b: bool)
    ensures b <==> exists i :: 0 <= i < |endpoints| && endpoints[i].kind == Http
    decreases |endpoints|
  {
    if endpoints == [] then false else endpoints[0].kind == Http || HasHttp(endpoints[1..])
  }

  /** The health a tick writes for a present agent, if any: `unhealthy` when the
      check threw, otherwise the probe's verdict when it differs. */
  function TickWrite(card: AgentCard, now: int, raised: bool): (w: Option<HealthStatus>)
    ensures raised ==> w == Some(Unhealthy)
    ensures !raised ==> (w.Some? <==> card.health != (if Probe(card, now) then Healthy else Unhealthy))
    ensures w.Some? ==> w.value != card.health || raised
    ensures w.Some? ==> w.value == Unhealthy || w.value == Healthy
  {
    if raised then Some(Unhealthy)
    else
      var verdict := if Probe(card, now) then Healthy else Unhealthy;
      if verdict != card.health then Some(verdict) else None
  }

  /** `updateAgentHealth` on a stored card. */
  function Marked(card: AgentCard, h: HealthStatus, now: int): AgentCard {
    card.(health := h, updated := now)
  }

  /** As written, marking an agent restamps `updated`, which the probe reads as a
      sign of life: an agent with an http endpoint marked `unhealthy` for silence
      is marked `healthy` again by any tick within the next five minutes. */
  lemma UnhealthyFlapsBack(card: AgentCard, now: int, later: int)
    requires TickWrite(card, now, false) == Some(Unhealthy)
    requires now <= later < now + PROBE_WINDOW_MS
    ensures TickWrite(Marked(card, Unhealthy, now), later, false) == Some(Healthy)
  {
  }

  /** As written, the sweep's `unknown` restamps `updated` too, so the agent's
      next tick replaces it with the probe's verdict. */
  lemma SweepUndoneByTick(card: AgentCard, now: int, later: int)
    requires now <= later < now + PROBE_WINDOW_MS
    ensures TickWrite(Marked(card, Unknown, now), later, false) == Some(Healthy)
  {
  }

  /** The sweep's effect on one card. */
  function Swept(card: AgentCard, now: int): (r: AgentCard)
    ensures card.updated < now - STALE_AFTER_MS ==> r == card.(health := Unknown, updated := now)
    ensures card.updated >= now - STALE_AFTER_MS ==> r == card
  {
    if card.updated < now - STALE_AFTER_MS then Marked(card, Unknown, now) else card
  }

  /** A clock that has moved less than ten minutes past every update sweeps nothing. */
  lemma {:induction false} SweepKeepsFresh(m: map<string, AgentCard>, now: int)
    requires forall k :: k in m ==> m[k].updated >= now - STALE_AFTER_MS
    ensures SweepTable(m, now) == m
  {
    forall k | k in m ensures SweepTable(m, now)[k] == m[k] {
      assert Swept(m[k], now) == m[k];
    }
  }

  function SweepTable(m: map<string, AgentCard>, now: int): (r: map<string, AgentCard>)
    ensures r.Keys == m.Keys
  {
    map k | k in m :: Swept(m[k], now)
  }

  datatype RegistryEvent =
    | AgentRegistered(card: AgentCard)
    | AgentUpdated(card: AgentCard)
    | AgentUnregistered(card: AgentCard)
    | AgentHealthChanged(card: AgentCard)
    | ClusterRegistered(cluster: ClusterInfo)
    | ClusterUnregistered(cluster: ClusterInfo)

  /** The events of a sweep over cards in table order. */
  function SweepEvents(cards: seq<AgentCard>, now: int): seq<RegistryEvent>
    decreases |cards|
  {
    if cards == [] then []
    else
      var init := SweepEvents(cards[..|cards| - 1], now);
      var last := cards[|cards| - 1];
      init + SweepEvent(last, now)
  }

  /** The table after sweeping the keys `done`. */
  function SweptUpTo(m: map<string, AgentCard>, done: seq<string>, now: int): map<string, AgentCard> {
    map k | k in m :: if k in done then Swept(m[k], now) else m[k]
  }

  lemma SweepStep(m: map<string, AgentCard>, order: seq<string>, i: nat, now: int)
    requires Distinct(order) && i < |order| && order[i] in m
    ensures SweptUpTo(m, order[..i + 1], now) == SweptUpTo(m, order[..i], now)[order[i] := Swept(m[order[i]], now)]
    ensures SweptUpTo(m, order[..i], now)[order[i]] == m[order[i]]
  {
    assert order[..i + 1] == order[..i] + [order[i]];
    assert order[i] !in order[..i];
  }

  /** One turn of the sweep loop keeps its invariant. */
  lemma SweepLoopStep(start: map<string, AgentCard>, order: seq<string>, before: seq<AgentCard>, i: nat, now: int,
                      table: map<string, AgentCard>, log0: seq<RegistryEvent>, log: seq<RegistryEvent>)
    requires Distinct(order) && i < |order| && |before| == |order|
    requires forall j :: 0 <= j < |order| ==> order[j] in start && before[j] == start[order[j]]
    requires table == SweptUpTo(start, order[..i], now)
    requires log == log0 + SweepEvents(before[..i], now)
    ensures order[i] in table && table[order[i]] == before[i]
    ensures table[order[i] := Swept(table[order[i]], now)] == SweptUpTo(start, order[..i + 1], now)
    ensures log + SweepEvent(table[order[i]], now) == log0 + SweepEvents(before[..i + 1], now)
  {
    SweepStep(start, order, i, now);
    SweepEventsSnoc(before[..i], before[i], now);
    assert before[..i + 1] == before[..i] + [before[i]];
  }

  lemma SweptAll(m: map<string, AgentCard>, order: seq<string>, now: int)
    requires forall k :: k in m ==> k in order
    ensures SweptUpTo(m, order, now) == SweepTable(m, now)
  {
  }

  /** The events of sweeping one more card. */
  function SweepEvent(card: AgentCard, now: int): seq<RegistryEvent> {
    if card.updated < now - STALE_AFTER_MS then [AgentHealthChanged(Swept(card, now))] else []
  }

  lemma SweepEventsSnoc(cards: seq<AgentCard>, card: AgentCard, now: int)
    ensures SweepEvents(cards + [card], now) == SweepEvents(cards, now) + SweepEvent(card, now)
  {
    assert (cards + [card])[..|cards|] == cards;
  }

  type TimerId = nat

  /** The timer table of an agent registry: every recorded timer runs, every
      running timer is the one recorded for its id, and handles lie below `next`. */
  ghost predicate Paired(checks: map<string, TimerId>, timers: map<TimerId, string>, next: TimerId)
  {
    (forall id :: id in checks ==> checks[id] in timers && timers[checks[id]] == id) &&
    (forall t :: t in timers ==> timers[t] in checks && checks[timers[t]] == t) &&
    (forall t :: t in timers ==> t < next)
  }

  /** The running timers that check `id`. */
  ghost function Checking(timers: map<TimerId, string>, id: string): set<TimerId>
  {
    set t | t in timers && timers[t] == id
  }

  /** Clearing the timer recorded for `id` keeps the table paired, leaves `id`
      with no running timer and every other id with the timers it had. */
  lemma {:induction false} Unpair(checks: map<string, TimerId>, timers: map<TimerId, string>, next: TimerId, id: string)
    requires Paired(checks, timers, next) && id in checks
    ensures Paired(checks - {id}, timers - {checks[id]}, next)
    ensures Checking(timers - {checks[id]}, id) == {}
    ensures forall other :: other != id ==> Checking(timers - {checks[id]}, other) == Checking(timers, other)
  {
    var rest := timers - {checks[id]};
    forall other | other != id
      ensures Checking(rest, other) == Checking(timers, other)
    {
      assert forall t :: t in Checking(timers, other) ==> t != checks[id];
    }
  }

  /** An id with no recorded timer has none running. */
  lemma Unchecked(checks: map<string, TimerId>, timers: map<TimerId, string>, next: TimerId, id: string)
    requires Paired(checks, timers, next) && id !in checks
    ensures Checking(timers, id) == {}
  {
  }

  class AgentRegistry {
    var agents: OrderedMap<string, AgentCard>
    var clusters: OrderedMap<string, ClusterInfo>
    /** The interval timer recorded for each agent id. */
    var healthChecks: map<string, TimerId>
    /** The interval timers still running, with the agent id each one checks. */
    var liveTimers: map<TimerId, string>
    var nextTimer: TimerId
    var events: seq<RegistryEvent>

    /** Every recorded timer runs, every running timer is the one recorded for its
        id (so at most one runs per agent), and timer handles are never reused. */
    ghost predicate Valid()
      reads this
    {
      agents.Valid() && clusters.Valid() && Paired(healthChecks, liveTimers, nextTimer)
    }

    /** The running timers that check `id`. */
    ghost function TimersOf(id: string): set<TimerId>
      reads this
    {
      Checking(liveTimers, id)
    }

    constructor ()
      ensures Valid()
      ensures agents == Empty() && clusters == Empty()
      ensures healthChecks == map[] && liveTimers == map[] && events == []
    {
      agents := Empty();
      clusters := Empty();
      healthChecks := map[];
      liveTimers := map[];
      nextTimer := 0;
      events := [];
    }

    /** `startAgentHealthCheck`: clear the id's timer, if any, and start a new one. */
    method StartAgentHealthCheck(id: string)
      requires Valid()
      modifies this
      ensures Valid()
      ensures healthChecks == old(healthChecks)[id := old(nextTimer)]
      ensures liveTimers == (if id in old(healthChecks) then old(liveTimers) - {old(healthChecks)[id]} else old(liveTimers))[old(nextTimer) := id]
      ensures nextTimer == old(nextTimer) + 1
      ensures TimersOf(id) == {healthChecks[id]}
      ensures agents == old(agents) && clusters == old(clusters) && events == old(events)
    {
      if id in healthChecks {
        liveTimers := liveTimers - {healthChecks[id]};
      }
      liveTimers := liveTimers[nextTimer := id];
      healthChecks := healthChecks[id := nextTimer];
      nextTimer := nextTimer + 1;
    }

    /** `registerAgent`: store the admitted card (a known id keeps its table
        position), announce it, and restart its health timer. */
    method RegisterAgent(card: AgentCard, now: int)
      requires Valid()
      modifies this
      ensures Valid()
      ensures var known := card.id in old(agents.entries);
        agents == old(agents).Put(card.id, Admitted(known, card, now)) &&
        events == old(events) + [if known then AgentUpdated(Admitted(known, card, now)) else AgentRegistered(Admitted(known, card, now))]
      ensures healthChecks == old(healthChecks)[card.id := old(nextTimer)]
      ensures TimersOf(card.id) == {healthChecks[card.id]}
      ensures forall id :: id != card.id ==> TimersOf(id) == old(TimersOf(id))
      ensures clusters == old(clusters)
    {
      var known := card.id in agents.entries;
      var admitted := Admitted(known, card, now);
      agents := agents.Put(card.id, admitted);
      events := events + [if known then AgentUpdated(admitted) else AgentRegistered(admitted)];
      StartAgentHealthCheck(card.id);
    }

    /** The `clearInterval` and `delete` of the id's recorded timer. */
    method StopHealthCheck(id: string)
      requires Valid()
      modifies this
      ensures Valid()
      ensures healthChecks == old(healthChecks) - {id}
      ensures liveTimers == (if id in old(healthChecks) then old(liveTimers) - {old(healthChecks)[id]} else old(liveTimers))
      ensures TimersOf(id) == {}
      ensures forall other :: other != id ==> TimersOf(other) == old(TimersOf(other))
      ensures agents == old(agents) && clusters == old(clusters) && events == old(events) && nextTimer == old(nextTimer)
    {
      if id in healthChecks {
        Unpair(healthChecks, liveTimers, nextTimer, id);
        liveTimers := liveTimers - {healthChecks[id]};
        healthChecks := healthChecks - {id};
      } else {
        Unchecked(healthChecks, liveTimers, nextTimer, id);
      }
    }

    /** `unregisterAgent`: a known id leaves the table, loses its timer and is
        announced; an unknown id changes nothing. */
    method UnregisterAgent(id: string)
      requires Valid()
      modifies this
      ensures Valid()
      ensures id in old(agents.entries) ==>
        agents == old(agents).Remove(id) && healthChecks == old(healthChecks) - {id} &&
        TimersOf(id) == {} && events == old(events) + [AgentUnregistered(old(agents.entries)[id])]
      ensures id !in old(agents.entries) ==>
        agents == old(agents) && healthChecks == old(healthChecks) && liveTimers == old(liveTimers) && events == old(events)
      ensures forall other :: other != id ==> TimersOf(other) == old(TimersOf(other))
      ensures clusters == old(clusters)
    {
      if id in agents.entries {
        var stored := agents.entries[id];
        StopHealthCheck(id);
        agents := agents.Remove(id);
        events := events + [AgentUnregistered(stored)];
      }
    }

    /** `updateAgentHealth`: a known agent gets the health and `updated = now`; an
        unknown id changes nothing. */
    method UpdateAgentHealth(id: string, health: HealthStatus, now: int)
      requires Valid()
      modifies this
      ensures Valid()
      ensures id in old(agents.entries) ==>
        agents == old(agents).Put(id, Marked(old(agents.entries)[id], health, now)) &&
        events == old(events) + [AgentHealthChanged(Marked(old(agents.entries)[id], health, now))]
      ensures id !in old(agents.entries) ==> agents == old(agents) && events == old(events)
      ensures agents.keys == old(agents.keys)
      ensures clusters == old(clusters) && healthChecks == old(healthChecks) && liveTimers == old(liveTimers)
      ensures nextTimer == old(nextTimer)
    {
      if id in agents.entries {
        var marked := Marked(agents.entries[id], health, now);
        agents := agents.Put(id, marked);
        events := events + [AgentHealthChanged(marked)];
      }
    }

    /** One firing of timer `t`. If its agent is gone the timer stops itself and
        drops the id's entry; otherwise the health is written only when it
        changes, or set `unhealthy` when the check threw. */
    method HealthTick(t: TimerId, now: int, raised: bool)
      requires Valid() && t in liveTimers
      modifies this
      ensures Valid()
      ensures var id := old(liveTimers)[t];
        if id !in old(agents.entries) then
          liveTimers == old(liveTimers) - {t} && healthChecks == old(healthChecks) - {id} &&
          agents == old(agents) && events == old(events)
        else
          var card := old(agents.entries)[id];
          var w := TickWrite(card, now, raised);
          liveTimers == old(liveTimers) && healthChecks == old(healthChecks) &&
          agents == (if w.Some? then old(agents).Put(id, Marked(card, w.value, now)) else old(agents)) &&
          events == old(events) + (if w.Some? then [AgentHealthChanged(Marked(card, w.value, now))] else [])
      ensures clusters == old(clusters)
    {
      var id := liveTimers[t];
      if id !in agents.entries {
        liveTimers := liveTimers - {t};
        healthChecks := healthChecks - {id};
      } else {
        var w := TickWrite(agents.entries[id], now, raised);
        if w.Some? {
          UpdateAgentHealth(id, w.value, now);
        }
      }
    }

    /** The sweep's step for one stored agent. */
    method SweepOne(id: string, now: int)
      requires agents.Valid() && id in agents.entries
      modifies this`agents, this`events
      ensures agents.Valid() && agents.keys == old(agents.keys)
      ensures agents.entries == old(agents.entries)[id := Swept(old(agents.entries)[id], now)]
      ensures events == old(events) + SweepEvent(old(agents.entries)[id], now)
    {
      var card := agents.entries[id];
      if card.updated < now - STALE_AFTER_MS {
        agents := agents.Put(id, Marked(card, Unknown, now));
        events := events + SweepEvent(card, now);
      } else {
        assert agents.entries == agents.entries[id := card];
      }
    }

    /** The five-minute sweep: every agent last updated more than ten minutes ago
        is marked `unknown` (restamping `updated`), in table order; the others are
        untouched. */
    method StaleSweep(now: int)
      requires Valid()
      modifies this
      ensures Valid()
      ensures agents.keys == old(agents.keys)
      ensures agents.entries == SweepTable(old(agents.entries), now)
      ensures events == old(events) + SweepEvents(old(agents.Values()), now)
      ensures clusters == old(clusters) && healthChecks == old(healthChecks) && liveTimers == old(liveTimers)
    {
      SweepAgents(now);
    }

    /** One round of the loop over `agents.entries()`: sweeps the `i`-th card. */
    method SweepNext(ghost start: map<string, AgentCard>, order: seq<string>, ghost before: seq<AgentCard>,
                     ghost log0: seq<RegistryEvent>, i: nat, now: int)
      requires Distinct(order) && i < |order| && |before| == |order|
      requires forall j :: 0 <= j < |order| ==> order[j] in start && before[j] == start[order[j]]
      requires agents.Valid() && agents.keys == order
      requires agents.entries == SweptUpTo(start, order[..i], now)
      requires events == log0 + SweepEvents(before[..i], now)
      modifies this`agents, this`events
      ensures agents.Valid() && agents.keys == order
      ensures agents.entries == SweptUpTo(start, order[..i + 1], now)
      ensures events == log0 + SweepEvents(before[..i + 1], now)
    {
      SweepLoopStep(start, order, before, i, now, agents.entries, log0, events);
      SweepOne(order[i], now);
    }

    /** The loop over `agents.entries()` inside the sweep. */
    method SweepAgents(now: int)
      requires agents.Valid()
      modifies this`agents, this`events
      ensures agents.Valid() && agents.keys == old(agents.keys)
      ensures agents.entries == SweepTable(old(agents.entries), now)
      ensures events == old(events) + SweepEvents(old(agents.Values()), now)
    {
      var order := agents.keys;
      ghost var start := agents.entries;
      ghost var before := agents.Values();
      var i := 0;
      while i < |order|
        invariant 0 <= i <= |order|
        invariant agents.Valid() && agents.keys == order
        invariant agents.entries == SweptUpTo(start, order[..i], now)
        invariant events == old(events) + SweepEvents(before[..i], now)
      {
        SweepNext(start, order, before, old(events), i, now);
        i := i + 1;
      }
      assert order[..i] == order;
      SweptAll(start, order, now);
      assert before[..i] == before;
    }

    /** `registerCluster`: stored by id with `last_seen = now`; the event carries
        the cluster as given. */
    method RegisterCluster(cluster: ClusterInfo, now: int)
      requires Valid()
      modifies this
      ensures Valid()
      ensures clusters == old(clusters).Put(cluster.id, cluster.(lastSeen := now))
      ensures events == old(events) + [ClusterRegistered(cluster)]
      ensures agents == old(agents) && healthChecks == old(healthChecks) && liveTimers == old(liveTimers)
    {
      clusters := clusters.Put(cluster.id, cluster.(lastSeen := now));
      events := events + [ClusterRegistered(cluster)];
    }

    /** `unregisterCluster`: an unknown id changes nothing. */
    method UnregisterCluster(id: string)
      requires Valid()
      modifies this
      ensures Valid()
      ensures id in old(clusters.entries) ==>
        clusters == old(clusters).Remove(id) && events == old(events) + [ClusterUnregistered(old(clusters.entries)[id])]
      ensures id !in old(clusters.entries) ==> clusters == old(clusters) && events == old(events)
      ensures agents == old(agents) && healthChecks == old(healthChecks) && liveTimers == old(liveTimers)
    {
      if id in clusters.entries {
        var stored := clusters.entries[id];
        clusters := clusters.Remove(id);
        events := events + [ClusterUnregistered(stored)];
      }
    }

    method GetClusters() returns (cs: seq<ClusterInfo>)
      requires Valid()
      ensures cs == clusters.Values()
    {
      cs := clusters.Values();
    }

    /** `getAgent`: the stored card, or `null`. */
    method GetAgent(id: string) returns (card: Option<AgentCard>)
      requires Valid()
      ensures card.Some? <==> id in agents.entries
      ensures card.Some? ==> card.value == agents.entries[id]
    {
      card := if id in agents.entries then Some(agents.entries[id]) else None;
    }

    method GetAllAgents() returns (cards: seq<AgentCard>)
      requires Valid()
      ensures cards == agents.Values()
    {
      cards := agents.Values();
    }

    method DiscoverAgents(req: DiscoveryRequest) returns (r: DiscoveryResponse)
      requires Valid()
      ensures r == Discover(agents.Values(), req)
    {
      r := Discover(agents.Values(), req);
    }

    method GetStatistics() returns (s: Statistics)
      requires Valid()
      ensures s == Stats(agents.Values(), |clusters.keys|)
    {
      s := Stats(agents.Values(), |clusters.keys|);
    }
  }
}
