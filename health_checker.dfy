/** Endpoint health checking and the table of periodic checks
    (src/utils/health-checker.ts). An agent is healthy when it has no endpoints
    or when one of its endpoints answers; the probes themselves are a parameter
    (the source simulates every known endpoint kind as healthy). At most one
    periodic check runs per agent name. */
module HealthChecks {
  import opened Types
  import opened OrderedMaps

  const DEFAULT_TIMEOUT_SECONDS := 5
  const DEFAULT_INTERVAL_SECONDS := 30
  const DEFAULT_HEALTH_PATH := "/health"

  /** `HealthCheckConfig`; every field may be absent. */
  datatype HealthCheckConfig = HealthCheckConfig(
    path: Option<string>,
    intervalSeconds: Option<int>,
    timeoutSeconds: Option<int>,
    retries: Option<int>)

  const NO_CONFIG := HealthCheckConfig(None, None, None, None)

  /** `(timeoutSeconds || 5) * 1000`: absent and 0 both fall back to 5 seconds. */
  function TimeoutMs(config: HealthCheckConfig): (ms: int)
    ensures config.timeoutSeconds in {None, Some(0)} ==> ms == DEFAULT_TIMEOUT_SECONDS * 1000
    ensures config.timeoutSeconds.Some? && config.timeoutSeconds.value != 0 ==> ms == config.timeoutSeconds.value * 1000
  {
    var s := config.timeoutSeconds;
    (if s.Some? && s.value != 0 then s.value else DEFAULT_TIMEOUT_SECONDS) * 1000
  }

  /** `path || '/health'`: absent and "" both fall back. */
  function HealthPath(config: HealthCheckConfig): (p: string)
    ensures p != ""
    ensures config.path.Some? && config.path.value != "" ==> p == config.path.value
    ensures !(config.path.Some? && config.path.value != "") ==> p == DEFAULT_HEALTH_PATH
  {
    var p := config.path;
    if p.Some? && p.value != "" then p.value else DEFAULT_HEALTH_PATH
  }

  /** `(healthCheck?.intervalSeconds || 30) * 1000`. */
  function IntervalMs(healthCheck: Option<HealthCheckConfig>): (ms: int)
    ensures healthCheck.None? ==> ms == DEFAULT_INTERVAL_SECONDS * 1000
    ensures healthCheck.Some? && healthCheck.value.intervalSeconds in {None, Some(0)} ==> ms == DEFAULT_INTERVAL_SECONDS * 1000
    ensures healthCheck.Some? && healthCheck.value.intervalSeconds.Some? && healthCheck.value.intervalSeconds.value != 0 ==>
      ms == healthCheck.value.intervalSeconds.value * 1000
  {
    var s := if healthCheck.Some? then healthCheck.value.intervalSeconds else None;
    (if s.Some? && s.value != 0 then s.value else DEFAULT_INTERVAL_SECONDS) * 1000
  }

  /** What a probe is given: the health path and the timeout in milliseconds. */
  datatype ProbeSettings = ProbeSettings(path: string, timeoutMs: int)

  /** How one probe ended: answered, did not answer, or threw. */
  datatype ProbeResult = Up | Down | Raised

  type Probe = (AgentEndpoint, ProbeSettings) -> ProbeResult

  /** The probes as the source has them: every http, grpc and websocket check is
      simulated as a success. */
  function StubProbe(e: AgentEndpoint, s: ProbeSettings): ProbeResult {
    Up
  }

  /** `checkEndpoint`: dispatch on the endpoint type; an unknown type and any
      exception both give false. */
  function CheckEndpoint(e: AgentEndpoint, config: HealthCheckConfig, probe: Probe): (ok: bool)
    ensures e.kind.OtherType? ==> !ok
    ensures ok <==> !e.kind.OtherType? && probe(e, ProbeSettings(HealthPath(config), TimeoutMs(config))) == Up
  {
    match e.kind
    case OtherType(_) => false
    case _ => probe(e, ProbeSettings(HealthPath(config), TimeoutMs(config))) == Up
  }

  /** The verdict `checkAgent` computes: no endpoints means healthy (stateless);
      otherwise some endpoint must pass. */
  predicate AgentHealthy(endpoints: Option<seq<AgentEndpoint>>, healthCheck: Option<HealthCheckConfig>, probe: Probe) {
    var es := endpoints.GetOr([]);
    var config := healthCheck.GetOr(NO_CONFIG);
    |es| == 0 || exists i :: 0 <= i < |es| && CheckEndpoint(es[i], config, probe)
  }

  /** With the simulated probes, an agent is healthy exactly when it has no
      endpoints or has an endpoint of a known type. */
  lemma StubVerdict(endpoints: Option<seq<AgentEndpoint>>, healthCheck: Option<HealthCheckConfig>)
    ensures AgentHealthy(endpoints, healthCheck, StubProbe) <==>
      |endpoints.GetOr([])| == 0 || exists i :: 0 <= i < |endpoints.GetOr([])| && !endpoints.GetOr([])[i].kind.OtherType?
  {
    var es := endpoints.GetOr([]);
    var config := healthCheck.GetOr(NO_CONFIG);
    if exists i :: 0 <= i < |es| && !es[i].kind.OtherType? {
      var i :| 0 <= i < |es| && !es[i].kind.OtherType?;
      assert CheckEndpoint(es[i], config, StubProbe);
    }
  }

  /** A periodic check: whom it checks, with what, and how often. */
  datatype PeriodicCheck = PeriodicCheck(name: string, endpoints: Option<seq<AgentEndpoint>>, healthCheck: Option<HealthCheckConfig>, intervalMs: int)

  type TimerHandle = nat

  /** The intervals in `timers` that check `name`. */
  ghost function Owned(timers: map<TimerHandle, PeriodicCheck>, name: string): set<TimerHandle> {
    set h | h in timers && timers[h].name == name
  }

  /** Every recorded interval runs, every running interval is the one recorded
      for its name, and handles below `next` are the only ones ever handed out. */
  ghost predicate Consistent(active: map<string, TimerHandle>, timers: map<TimerHandle, PeriodicCheck>, next: TimerHandle) {
    (forall n :: n in active ==> active[n] in timers && timers[active[n]].name == n) &&
    (forall h :: h in timers ==> timers[h].name in active && active[timers[h].name] == h) &&
    (forall h :: h in timers ==> h < next)
  }

  /** A consistent table holds exactly one interval per recorded name and none
      for any other name. */
  lemma OwnedByRecord(active: map<string, TimerHandle>, timers: map<TimerHandle, PeriodicCheck>, next: TimerHandle, name: string)
    requires Consistent(active, timers, next)
    ensures name in active ==> Owned(timers, name) == {active[name]}
    ensures name !in active ==> Owned(timers, name) == {}
  {
  }

  /** Recording a fresh interval for an unrecorded name keeps the table
      consistent and touches no other name. */
  lemma {:induction false} RecordFresh(active: map<string, TimerHandle>, timers: map<TimerHandle, PeriodicCheck>, next: TimerHandle, check: PeriodicCheck)
    requires Consistent(active, timers, next) && check.name !in active
    ensures Consistent(active[check.name := next], timers[next := check], next + 1)
    ensures Owned(timers[next := check], check.name) == {next}
    ensures forall other :: other != check.name ==> Owned(timers[next := check], other) == Owned(timers, other)
  {
    OwnedByRecord(active, timers, next, check.name);
    assert next !in timers;
  }

  /** Dropping a name's interval keeps the table consistent and touches no other
      name. */
  lemma {:induction false} DropRecord(active: map<string, TimerHandle>, timers: map<TimerHandle, PeriodicCheck>, next: TimerHandle, name: string)
    requires Consistent(active, timers, next) && name in active
    ensures Consistent(active - {name}, timers - {active[name]}, next)
    ensures Owned(timers - {active[name]}, name) == {}
    ensures forall other :: other != name ==> Owned(timers - {active[name]}, other) == Owned(timers, other)
  {
    var h := active[name];
    OwnedByRecord(active, timers, next, name);
    forall other | other != name
      ensures Owned(timers - {h}, other) == Owned(timers, other)
    {
      assert h !in Owned(timers, other);
    }
  }

  /** The table after `startPeriodicCheck` replaced the name's interval by
      `check`: consistent again, with exactly `next` checking the name and every
      other name untouched. */
  lemma {:induction false} Restart(active: map<string, TimerHandle>, timers: map<TimerHandle, PeriodicCheck>, next: TimerHandle, check: PeriodicCheck)
    requires Consistent(active, timers, next)
    ensures var t := if check.name in active then timers - {active[check.name]} else timers;
      Consistent(active[check.name := next], t[next := check], next + 1) &&
      Owned(t[next := check], check.name) == {next} &&
      forall other :: other != check.name ==> Owned(t[next := check], other) == Owned(timers, other)
  {
    var name := check.name;
    if name in active {
      DropRecord(active, timers, next, name);
      RecordFresh(active - {name}, timers - {active[name]}, next, check);
      assert (active - {name})[name := next] == active[name := next];
    } else {
      assert active - {name} == active;
      RecordFresh(active, timers, next, check);
    }
  }

  /** Dropping a name and then recording it is recording it over the old entry. */
  lemma Rerecorded(active: map<string, TimerHandle>, name: string, handle: TimerHandle)
    ensures (active - {name})[name := handle] == active[name := handle]
  {
  }

  class HealthChecker {
    /** The interval recorded for each agent name, in insertion order. */
    var activeChecks: OrderedMap<string, TimerHandle>
    /** The intervals still running. */
    var liveTimers: map<TimerHandle, PeriodicCheck>
    var nextHandle: TimerHandle

    ghost predicate Valid()
      reads this
    {
      activeChecks.Valid() && Consistent(activeChecks.entries, liveTimers, nextHandle)
    }

    constructor ()
      ensures Valid() && activeChecks == Empty() && liveTimers == map[]
    {
      activeChecks := Empty();
      liveTimers := map[];
      nextHandle := 0;
    }

    /** `checkAgent`: try the endpoints in order and stop at the first that
        passes. `tried` is how many endpoints were checked. */
    method CheckAgent(endpoints: Option<seq<AgentEndpoint>>, healthCheck: Option<HealthCheckConfig>, probe: Probe)
      returns (healthy: bool, tried: nat)
      ensures healthy == AgentHealthy(endpoints, healthCheck, probe)
      ensures tried <= |endpoints.GetOr([])|
      ensures forall j :: 0 <= j < tried - 1 ==> !CheckEndpoint(endpoints.GetOr([])[j], healthCheck.GetOr(NO_CONFIG), probe)
      ensures healthy && tried > 0 ==> CheckEndpoint(endpoints.GetOr([])[tried - 1], healthCheck.GetOr(NO_CONFIG), probe)
      ensures !healthy ==> tried == |endpoints.GetOr([])|
    {
      var es := endpoints.GetOr([]);
      var config := healthCheck.GetOr(NO_CONFIG);
      if |es| == 0 {
        return true, 0;
      }
      var i := 0;
      while i < |es|
        invariant 0 <= i <= |es|
        invariant forall j :: 0 <= j < i ==> !CheckEndpoint(es[j], config, probe)
      {
        if CheckEndpoint(es[i], config, probe) {
          return true, i + 1;
        }
        i := i + 1;
      }
      return false, i;
    }

    /** `stopPeriodicCheck`: clear the name's interval, if any; a second stop is
        a no-op. */
    method StopPeriodicCheck(name: string)
      requires Valid()
      modifies this
      ensures Valid()
      ensures name in old(activeChecks.entries) ==>
        activeChecks == old(activeChecks).Remove(name) && liveTimers == old(liveTimers) - {old(activeChecks.entries)[name]}
      ensures name !in old(activeChecks.entries) ==> activeChecks == old(activeChecks) && liveTimers == old(liveTimers)
      ensures activeChecks.entries == old(activeChecks.entries) - {name}
      ensures Owned(liveTimers, name) == {}
      ensures forall other :: other != name ==> Owned(liveTimers, other) == Owned(old(liveTimers), other)
      ensures nextHandle == old(nextHandle)
    {
      if name in activeChecks.entries {
        DropRecord(activeChecks.entries, liveTimers, nextHandle, name);
        liveTimers := liveTimers - {activeChecks.entries[name]};
        activeChecks := activeChecks.Remove(name);
      } else {
        OwnedByRecord(activeChecks.entries, liveTimers, nextHandle, name);
      }
    }

    /** `startPeriodicCheck`: replace any earlier interval for the name by a new
        one; exactly one then runs for it. */
    method StartPeriodicCheck(name: string, endpoints: Option<seq<AgentEndpoint>>, healthCheck: Option<HealthCheckConfig>)
      returns (handle: TimerHandle)
      requires Valid()
      modifies this
      ensures Valid()
      ensures handle == old(nextHandle) && handle !in old(liveTimers) && handle in liveTimers
      ensures liveTimers[handle] == PeriodicCheck(name, endpoints, healthCheck, IntervalMs(healthCheck))
      ensures activeChecks.entries == old(activeChecks.entries)[name := handle]
      ensures Owned(liveTimers, name) == {handle}
      ensures forall other :: other != name ==> Owned(liveTimers, other) == Owned(old(liveTimers), other)
    {
      StopPeriodicCheck(name);
      handle := Schedule(PeriodicCheck(name, endpoints, healthCheck, IntervalMs(healthCheck)));
      Rerecorded(old(activeChecks.entries), name, handle);
    }

    /** `setInterval` and `activeChecks.set` for a name with no recorded interval. */
    method Schedule(check: PeriodicCheck) returns (handle: TimerHandle)
      requires Valid() && check.name !in activeChecks.entries
      modifies this
      ensures Valid()
      ensures handle == old(nextHandle) && nextHandle == old(nextHandle) + 1
      ensures liveTimers == old(liveTimers)[handle := check]
      ensures activeChecks == old(activeChecks).Put(check.name, handle)
      ensures Owned(liveTimers, check.name) == {handle}
      ensures forall other :: other != check.name ==> Owned(liveTimers, other) == Owned(old(liveTimers), other)
    {
      handle := nextHandle;
      RecordFresh(activeChecks.entries, liveTimers, nextHandle, check);
      liveTimers := liveTimers[handle := check];
      activeChecks := activeChecks.Put(check.name, handle);
      nextHandle := nextHandle + 1;
    }

    /** One firing of interval `handle`: the callback receives the agent's verdict. */
    method Tick(handle: TimerHandle, probe: Probe) returns (healthy: bool)
      requires Valid() && handle in liveTimers
      ensures healthy == AgentHealthy(liveTimers[handle].endpoints, liveTimers[handle].healthCheck, probe)
    {
      var check := liveTimers[handle];
      var tried;
      healthy, tried := CheckAgent(check.endpoints, check.healthCheck, probe);
    }

    /** `stop`: clear the interval of every recorded name, which leaves none
        running, then empty the table. */
    method Stop()
      requires Valid()
      modifies this
      ensures Valid()
      ensures activeChecks == Empty() && liveTimers == map[]
    {
      var names := activeChecks.keys;
      var i := 0;
      while i < |names|
        invariant 0 <= i <= |names|
        invariant activeChecks == old(activeChecks) && nextHandle == old(nextHandle)
        invariant forall h :: h in liveTimers ==> h in old(liveTimers) && liveTimers[h] == old(liveTimers)[h]
        invariant forall h :: h in old(liveTimers) ==> (h in liveTimers <==> old(liveTimers)[h].name !in names[..i])
      {
        var h := activeChecks.entries[names[i]];
        assert names[..i + 1] == names[..i] + [names[i]];
        liveTimers := liveTimers - {h};
        i := i + 1;
      }
      assert names[..i] == names;
      assert forall h :: h in old(liveTimers) ==> old(liveTimers)[h].name in names;
      assert liveTimers.Keys == {};
      activeChecks := Empty();
    }
  }
}
