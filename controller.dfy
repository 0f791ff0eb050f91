/** The declarative agent controller (src/k8s/agent-controller.ts). Agent
    objects live in a store keyed by name, standing in for the cluster's custom
    objects. Status writes are merges stamped with `lastSeen`; reconciling
    validates the spec, moves Pending to Running or marks the agent Failed, and
    records its capability ids; the monitoring pass writes health only when it
    changes. */
module Controller {
  import opened Types
  import opened Strings
  import opened HealthChecks

  datatype Phase = Pending | Running | Failed | Succeeded

  datatype ConditionStatus = StatusTrue | StatusFalse | StatusUnknown

  datatype Condition = Condition(
    kind: string,
    status: ConditionStatus,
    lastTransitionTime: int,
    reason: Option<string>,
    message: Option<string>)

  /** A status, or a partial status used as a patch: every field may be absent. */
  datatype AgentStatus = AgentStatus(
    phase: Option<Phase>,
    health: Option<HealthStatus>,
    lastSeen: Option<int>,
    conditions: Option<seq<Condition>>,
    observedGeneration: Option<int>,
    registeredCapabilities: Option<seq<string>>)

  const NO_STATUS := AgentStatus(None, None, None, None, None, None)

  /** The part of an agent's spec the controller reads. */
  datatype AgentSpec = AgentSpec(
    name: Option<string>,
    version: Option<string>,
    capabilities: Option<seq<AgentCapability>>,
    endpoints: Option<seq<AgentEndpoint>>,
    healthCheck: Option<HealthCheckConfig>)

  /** An Agent custom object: its name, labels, annotations, spec (possibly
      absent) and status (possibly absent). */
  datatype AgentObject = AgentObject(
    name: string,
    labels: map<string, string>,
    annotations: map<string, string>,
    spec: Option<AgentSpec>,
    status: Option<AgentStatus>)

  // ---------------------------------------------------------------------------
  // Status merge

  /** `{...current, ...patch, lastSeen: now}`: supplied fields overwrite, the
      rest are kept, and `lastSeen` is stamped. Lists are replaced whole. */
  function Merge(current: Option<AgentStatus>, patch: AgentStatus, now: int): (s: AgentStatus)
    ensures s.lastSeen == Some(now)
    ensures patch.phase.Some? ==> s.phase == patch.phase
    ensures patch.phase.None? ==> s.phase == (if current.Some? then current.value.phase else None)
    ensures patch.health.Some? ==> s.health == patch.health
    ensures patch.health.None? ==> s.health == (if current.Some? then current.value.health else None)
    ensures patch.conditions.Some? ==> s.conditions == patch.conditions
    ensures patch.conditions.None? ==> s.conditions == (if current.Some? then current.value.conditions else None)
    ensures patch.observedGeneration.Some? ==> s.observedGeneration == patch.observedGeneration
    ensures patch.observedGeneration.None? ==> s.observedGeneration == (if current.Some? then current.value.observedGeneration else None)
    ensures patch.registeredCapabilities.Some? ==> s.registeredCapabilities == patch.registeredCapabilities
    ensures patch.registeredCapabilities.None? ==>
      s.registeredCapabilities == (if current.Some? then current.value.registeredCapabilities else None)
  {
    var base := current.GetOr(NO_STATUS);
    AgentStatus(
      if patch.phase.Some? then patch.phase else base.phase,
      if patch.health.Some? then patch.health else base.health,
      Some(now),
      if patch.conditions.Some? then patch.conditions else base.conditions,
      if patch.observedGeneration.Some? then patch.observedGeneration else base.observedGeneration,
      if patch.registeredCapabilities.Some? then patch.registeredCapabilities else base.registeredCapabilities)
  }

  /** Writing the same patch twice is writing it once (at the later time). */
  lemma MergeTwice(current: Option<AgentStatus>, patch: AgentStatus, t1: int, t2: int)
    ensures Merge(Some(Merge(current, patch, t1)), patch, t2) == Merge(current, patch, t2)
  {
  }

  /** A condition list in the patch replaces the recorded one: whatever was
      recorded, the new list is exactly the supplied one. */
  lemma ConditionsReplaced(a: Option<AgentStatus>, b: Option<AgentStatus>, patch: AgentStatus, now: int)
    requires patch.conditions.Some?
    ensures Merge(a, patch, now).conditions == Merge(b, patch, now).conditions == patch.conditions
  {
  }

  // ---------------------------------------------------------------------------
  // Spec validation

  const NAME_VERSION_REQUIRED := "Agent name and version are required"
  const CAPABILITY_REQUIRED := "Agent must have at least one capability"
  const VERSION_NOT_SEMVER := "Agent version must follow semantic versioning"

  /** The optional leading `v` of a version. */
  function VersionPrefix(v: string): string {
    if |v| > 0 && v[0] == 'v' then "v" else ""
  }

  /** The version without its leading `v`. */
  function VersionCore(v: string): (core: string)
    ensures v == VersionPrefix(v) + core
  {
    if |v| > 0 && v[0] == 'v' then v[1..] else v
  }

  /** The version test `^v?[0-9]+\.[0-9]+\.[0-9]+$`, read as: after an optional
      `v`, exactly three dot-separated pieces, each a non-empty run of digits. */
  predicate IsSemVer(v: string) {
    var parts := Split(VersionCore(v), '.');
    |parts| == 3 && forall i :: 0 <= i < 3 ==> parts[i] != "" && IsDigits(parts[i])
  }

  lemma DigitsHaveNoDot(s: string)
    requires IsDigits(s)
    ensures '.' !in s
  {
  }

  /** Three dot-free pieces joined by dots split back into those pieces. */
  lemma {:induction false} SplitThree(a: string, b: string, c: string)
    requires '.' !in a && '.' !in b && '.' !in c
    ensures Split(a + "." + b + "." + c, '.') == [a, b, c]
  {
    assert a + "." + b + "." + c == a + ['.'] + (b + ['.'] + c);
    SplitAfterPrefix(a, '.', b + ['.'] + c);
    SplitAfterPrefix(b, '.', c);
    SplitWithoutSeparator(c, '.');
  }

  /** Every string of the pattern's shape passes. */
  lemma {:induction false} SemVerAccepts(pre: string, a: string, b: string, c: string)
    requires pre == "" || pre == "v"
    requires a != "" && b != "" && c != "" && IsDigits(a) && IsDigits(b) && IsDigits(c)
    ensures IsSemVer(pre + a + "." + b + "." + c)
  {
    var v := pre + a + "." + b + "." + c;
    var core := a + "." + b + "." + c;
    assert v == pre + core;
    if pre == "v" {
      assert v[0] == 'v' && v[1..] == core;
    } else {
      assert v[0] == a[0] && IsDigit(a[0]);
    }
    assert VersionCore(v) == core;
    DigitsHaveNoDot(a);
    DigitsHaveNoDot(b);
    DigitsHaveNoDot(c);
    SplitThree(a, b, c);
  }

  /** Every string that passes has the pattern's shape: an optional `v`, then
      three non-empty digit runs joined by dots. */
  lemma {:induction false} SemVerShape(v: string)
    requires IsSemVer(v)
    ensures var p := Split(VersionCore(v), '.');
      |p| == 3 && p[0] != "" && p[1] != "" && p[2] != "" && IsDigits(p[0]) && IsDigits(p[1]) && IsDigits(p[2]) &&
      v == VersionPrefix(v) + p[0] + "." + p[1] + "." + p[2]
  {
    var core := VersionCore(v);
    var p := Split(core, '.');
    assert p[0] != "" && IsDigits(p[0]) && p[1] != "" && IsDigits(p[1]) && p[2] != "" && IsDigits(p[2]);
    JoinSplit(core, '.');
    var tail := p[1..];
    assert tail == [p[1], p[2]] && tail[1..] == [p[2]];
    assert Join(tail, '.') == p[1] + ['.'] + p[2];
    assert core == p[0] + ['.'] + (p[1] + ['.'] + p[2]);
    assert p[0] + "." + p[1] + "." + p[2] == p[0] + ['.'] + (p[1] + ['.'] + p[2]);
  }

  /** A plain release version passes. */
  lemma SemVerAcceptsRelease()
    ensures IsSemVer("1.2.3")
  {
    SemVerAccepts("", "1", "2", "3");
    assert "" + "1" + "." + "2" + "." + "3" == "1.2.3";
  }

  /** A tag-style version with the leading `v` passes. */
  lemma SemVerAcceptsTag()
    ensures IsSemVer("v1.2.3")
  {
    SemVerAccepts("v", "1", "2", "3");
    assert "v" + "1" + "." + "2" + "." + "3" == "v1.2.3";
  }

  /** Two pieces are too few. */
  lemma SemVerRejectsShort()
    ensures !IsSemVer("1.2")
  {
    assert VersionCore("1.2") == "1.2";
    assert "1.2" == "1" + ['.'] + "2";
    SplitAfterPrefix("1", '.', "2");
    SplitWithoutSeparator("2", '.');
  }

  /** Four pieces are too many. */
  lemma SemVerRejectsLong()
    ensures !IsSemVer("v1.2.3.4")
  {
    assert VersionCore("v1.2.3.4") == "1.2.3.4";
    assert "1.2.3.4" == "1" + ['.'] + ("2" + ['.'] + ("3" + ['.'] + "4"));
    SplitAfterPrefix("1", '.', "2" + ['.'] + ("3" + ['.'] + "4"));
    SplitAfterPrefix("2", '.', "3" + ['.'] + "4");
    SplitAfterPrefix("3", '.', "4");
    SplitWithoutSeparator("4", '.');
  }

  /** A pre-release suffix is not digits. */
  lemma SemVerRejectsPrerelease()
    ensures !IsSemVer("1.2.3-rc")
  {
    var v := "1.2.3-rc";
    assert v == "1" + "." + "2" + "." + "3-rc";
    assert VersionCore(v) == v;
    SplitThree("1", "2", "3-rc");
    var parts := Split(VersionCore(v), '.');
    assert parts == ["1", "2", "3-rc"];
    assert !IsDigit(parts[2][1]);
    assert !IsDigits(parts[2]);
  }

  /** `validateAgentSpec`: the first failing rule's message, checked in order
      (name and version, then capabilities, then the version shape). */
  function ValidationError(spec: AgentSpec): (err: Option<string>)
    ensures !(Present(spec.name) && Present(spec.version)) ==> err == Some(NAME_VERSION_REQUIRED)
    ensures Present(spec.name) && Present(spec.version) && |spec.capabilities.GetOr([])| == 0 ==> err == Some(CAPABILITY_REQUIRED)
    ensures Present(spec.name) && Present(spec.version) && |spec.capabilities.GetOr([])| > 0 && !IsSemVer(spec.version.value) ==>
      err == Some(VERSION_NOT_SEMVER)
    ensures err.None? <==>
      Present(spec.name) && Present(spec.version) && |spec.capabilities.GetOr([])| > 0 && IsSemVer(spec.version.value)
  {
    if !(Present(spec.name) && Present(spec.version)) then Some(NAME_VERSION_REQUIRED)
    else if spec.capabilities.None? || |spec.capabilities.value| == 0 then Some(CAPABILITY_REQUIRED)
    else if !IsSemVer(spec.version.value) then Some(VERSION_NOT_SEMVER)
    else None
  }

  /** Reading a field of an absent spec throws this TypeError. */
  const MISSING_SPEC_ERROR := "TypeError: Cannot read properties of undefined (reading 'name')"

  /** What reconciliation fails with, as `${error}` renders it, or None when the
      spec is valid. */
  function ReconcileFailure(spec: Option<AgentSpec>): (f: Option<string>)
    ensures spec.None? ==> f == Some(MISSING_SPEC_ERROR)
    ensures spec.Some? ==> (f.None? <==> ValidationError(spec.value).None?)
    ensures spec.Some? && f.Some? ==> f == Some("Error: " + ValidationError(spec.value).value)
  {
    match spec
    case None => Some(MISSING_SPEC_ERROR)
    case Some(s) =>
      match ValidationError(s)
      case None => None
      case Some(m) => Some("Error: " + m)
  }

  // ---------------------------------------------------------------------------
  // The patches the controller writes

  function ReadyCondition(now: int): Condition {
    Condition("Ready", StatusTrue, now, Some("AgentStarted"), Some("Agent has been successfully started"))
  }

  function FailedCondition(error: string, now: int): Condition {
    Condition("Ready", StatusFalse, now, Some("ReconciliationFailed"), Some("Failed to reconcile agent: " + error))
  }

  function HealthCondition(healthy: bool, now: int): Condition {
    Condition("Healthy", if healthy then StatusTrue else StatusFalse, now,
      Some(if healthy then "HealthCheckPassed" else "HealthCheckFailed"),
      Some("Agent health check " + (if healthy then "passed" else "failed")))
  }

  function RunningPatch(now: int): AgentStatus {
    NO_STATUS.(phase := Some(Running), conditions := Some([ReadyCondition(now)]))
  }

  function FailedPatch(error: string, now: int): AgentStatus {
    NO_STATUS.(phase := Some(Failed), conditions := Some([FailedCondition(error, now)]))
  }

  /** `spec.capabilities.map(cap => cap.id)`. */
  function CapabilityIds(caps: seq<AgentCapability>): (ids: seq<string>)
    ensures |ids| == |caps| && forall i :: 0 <= i < |caps| ==> ids[i] == caps[i].id
  {
    seq(|caps|, i requires 0 <= i < |caps| => caps[i].id)
  }

  function CapabilitiesPatch(ids: seq<string>): AgentStatus {
    NO_STATUS.(registeredCapabilities := Some(ids))
  }

  const UNKNOWN_PATCH := NO_STATUS.(health := Some(Unknown))

  /** The message `updateAgentStatus` throws for a missing object, as
      `${error}` renders it. */
  function NotFoundError(name: string): string {
    "Error: Agent " + name + " not found"
  }

  // ---------------------------------------------------------------------------
  // The store and what the controller announces

  datatype ControllerEvent =
    | AgentRegisteredEvent(name: string, spec: AgentSpec)
    | AgentUnregisteredEvent(name: string)
    | StatusUpdated(name: string, status: AgentStatus)
    | AgentAdded(agent: AgentObject)
    | AgentModified(agent: AgentObject)
    | AgentDeleted(agent: AgentObject)
    | HealthChangedEvent(name: string, health: HealthStatus)
    | StoppedEvent

  /** The stored objects and the events emitted so far. */
  datatype ControllerState = ControllerState(objects: map<string, AgentObject>, events: seq<ControllerEvent>)

  /** One `updateAgentStatus` write: None when the object is missing (the write
      throws and nothing changes), otherwise the merged status is stored and
      announced. */
  function StatusWrite(w: ControllerState, name: string, patch: AgentStatus, now: int): (r: Option<ControllerState>)
    ensures r.None? <==> name !in w.objects
    ensures r.Some? ==>
      r.value.objects.Keys == w.objects.Keys &&
      (forall other :: other in w.objects && other != name ==> r.value.objects[other] == w.objects[other]) &&
      r.value.objects[name] == w.objects[name].(status := Some(Merge(w.objects[name].status, patch, now))) &&
      r.value.events == w.events + [StatusUpdated(name, Merge(w.objects[name].status, patch, now))]
  {
    if name !in w.objects then None
    else
      var merged := Merge(w.objects[name].status, patch, now);
      Some(ControllerState(w.objects[name := w.objects[name].(status := Some(merged))], w.events + [StatusUpdated(name, merged)]))
  }

  function PhaseOf(obj: AgentObject): Option<Phase> {
    if obj.status.Some? then obj.status.value.phase else None
  }

  /** `reconcileAgent(obj)`: the decisions read the event's object; the writes
      merge into the stored one. A missing stored object makes every write throw,
      so nothing changes. */
  function Reconciled(w: ControllerState, obj: AgentObject, now: int): ControllerState {
    var name := obj.name;
    if name !in w.objects then w
    else match ReconcileFailure(obj.spec)
      case Some(error) => StatusWrite(w, name, FailedPatch(error, now), now).value
      case None =>
        var w1 := if PhaseOf(obj) == Some(Pending) then StatusWrite(w, name, RunningPatch(now), now).value else w;
        StatusWrite(w1, name, CapabilitiesPatch(CapabilityIds(obj.spec.value.capabilities.value)), now).value
  }

  /** An invalid spec leaves the agent Failed with exactly one Ready/False
      condition, whatever its phase was; its capability record is untouched. */
  lemma ReconcileInvalid(w: ControllerState, obj: AgentObject, now: int)
    requires obj.name in w.objects && ReconcileFailure(obj.spec).Some?
    ensures var s := Reconciled(w, obj, now).objects[obj.name].status.value;
      s.phase == Some(Failed) &&
      s.conditions == Some([FailedCondition(ReconcileFailure(obj.spec).value, now)]) &&
      s.lastSeen == Some(now) &&
      s.registeredCapabilities == Merge(w.objects[obj.name].status, NO_STATUS, now).registeredCapabilities &&
      s.health == Merge(w.objects[obj.name].status, NO_STATUS, now).health
  {
  }

  /** A valid spec on a Pending object moves it to Running with exactly one
      Ready/True condition and records the spec's capability ids in order. */
  lemma ReconcilePending(w: ControllerState, obj: AgentObject, now: int)
    requires obj.name in w.objects && ReconcileFailure(obj.spec).None? && PhaseOf(obj) == Some(Pending)
    ensures var s := Reconciled(w, obj, now).objects[obj.name].status.value;
      s.phase == Some(Running) &&
      s.conditions == Some([ReadyCondition(now)]) &&
      s.registeredCapabilities == Some(CapabilityIds(obj.spec.value.capabilities.value))
  {
  }

  /** A valid spec on an object in any other phase, or with no status at all,
      leaves the phase and conditions as stored and records the capability ids. */
  lemma ReconcileOtherPhase(w: ControllerState, obj: AgentObject, now: int)
    requires obj.name in w.objects && ReconcileFailure(obj.spec).None? && PhaseOf(obj) != Some(Pending)
    ensures var stored := w.objects[obj.name].status;
      var s := Reconciled(w, obj, now).objects[obj.name].status.value;
      s.phase == Merge(stored, NO_STATUS, now).phase &&
      s.conditions == Merge(stored, NO_STATUS, now).conditions &&
      s.registeredCapabilities == Some(CapabilityIds(obj.spec.value.capabilities.value))
  {
  }

  /** Reconciling a valid object, then reconciling it again as stored, changes
      nothing but `lastSeen`. */
  lemma ReconcileSettles(w: ControllerState, obj: AgentObject, t1: int, t2: int)
    requires obj.name in w.objects && obj == w.objects[obj.name] && ReconcileFailure(obj.spec).None?
    ensures var w1 := Reconciled(w, obj, t1);
      var obj1 := w1.objects[obj.name];
      var s1 := obj1.status.value;
      Reconciled(w1, obj1, t2).objects[obj.name].status == Some(s1.(lastSeen := Some(t2)))
  {
    var w1 := Reconciled(w, obj, t1);
    var obj1 := w1.objects[obj.name];
    assert obj1.spec == obj.spec;
    assert PhaseOf(obj1) != Some(Pending);
  }

  /** A just-registered object with a valid spec, once its ADDED event is
      reconciled, is Running, still of unknown health, and lists its
      capabilities. */
  lemma RegisteredThenReconciled(w: ControllerState, name: string, spec: AgentSpec, labels: map<string, string>, t0: int, now: int)
    requires name in w.objects && w.objects[name] == InitialObject(name, spec, labels, t0)
    requires ValidationError(spec).None?
    ensures var s := Reconciled(w, w.objects[name], now).objects[name].status.value;
      s.phase == Some(Running) && s.health == Some(Unknown) &&
      s.conditions == Some([ReadyCondition(now)]) &&
      s.registeredCapabilities == Some(CapabilityIds(spec.capabilities.value))
  {
  }

  // ---------------------------------------------------------------------------
  // Registration

  function DefaultLabels(name: string): map<string, string> {
    map[
      "app.kubernetes.io/name" := name,
      "app.kubernetes.io/component" := "agent",
      "app.kubernetes.io/part-of" := "a2a-platform",
      "app.kubernetes.io/managed-by" := "a2a-controller"]
  }

  const INITIAL_STATUS := AgentStatus(Some(Pending), Some(Unknown), None, Some([]), None, Some([]))

  /** The object `registerAgent` creates: the four standard labels overridden by
      the caller's, the registration time and version as annotations, and status
      Pending / unknown / no conditions / no capabilities. */
  function InitialObject(name: string, spec: AgentSpec, labels: map<string, string>, now: int): (o: AgentObject)
    ensures o.name == name && o.spec == Some(spec) && o.status == Some(INITIAL_STATUS)
    ensures o.labels.Keys == DefaultLabels(name).Keys + labels.Keys
    ensures forall k :: k in labels ==> o.labels[k] == labels[k]
    ensures forall k :: k in DefaultLabels(name) && k !in labels ==> o.labels[k] == DefaultLabels(name)[k]
    ensures "a2a.io/registered-at" in o.annotations && o.annotations["a2a.io/registered-at"] == IntText(now)
    ensures "a2a.io/agent-version" in o.annotations <==> spec.version.Some?
    ensures spec.version.Some? ==> o.annotations["a2a.io/agent-version"] == spec.version.value
  {
    var stamped := map["a2a.io/registered-at" := IntText(now)];
    AgentObject(name, DefaultLabels(name) + labels,
      if spec.version.Some? then stamped["a2a.io/agent-version" := spec.version.value] else stamped,
      Some(spec), Some(INITIAL_STATUS))
  }

  // ---------------------------------------------------------------------------
  // Health monitoring

  /** How `healthChecker.checkAgent` ended for an object: a verdict, or an
      exception (an absent spec cannot be read). */
  datatype CheckOutcome = Checked(healthy: bool) | CheckThrew

  function HealthOutcome(obj: AgentObject, probe: Probe): CheckOutcome {
    match obj.spec
    case None => CheckThrew
    case Some(spec) => Checked(AgentHealthy(spec.endpoints, spec.healthCheck, probe))
  }

  /** `agent.status?.health || 'unknown'`. */
  function RecordedHealth(obj: AgentObject): HealthStatus {
    if obj.status.Some? && obj.status.value.health.Some? then obj.status.value.health.value else Unknown
  }

  /** The write `checkAgentHealth` decides on, if any: a verdict is written, with
      one Healthy condition, only when it differs from the recorded health; an
      exception resets health to unknown, with no condition, unless it already
      is unknown. */
  function HealthPatch(current: HealthStatus, outcome: CheckOutcome, now: int): (p: Option<AgentStatus>)
    ensures outcome.Checked? ==>
      (p.Some? <==> current != (if outcome.healthy then Healthy else Unhealthy)) &&
      (p.Some? ==> p.value == NO_STATUS.(health := Some(if outcome.healthy then Healthy else Unhealthy),
                                         conditions := Some([HealthCondition(outcome.healthy, now)])))
    ensures outcome.CheckThrew? ==> (p.Some? <==> current != Unknown) && (p.Some? ==> p.value == UNKNOWN_PATCH)
    ensures p.Some? ==> p.value.health.Some? && p.value.health.value != current
  {
    match outcome
    case Checked(ok) =>
      var fresh_health := if ok then Healthy else Unhealthy;
      if fresh_health != current then Some(NO_STATUS.(health := Some(fresh_health), conditions := Some([HealthCondition(ok, now)])))
      else None
    case CheckThrew =>
      if current != Unknown then Some(UNKNOWN_PATCH) else None
  }

  /** `checkAgentHealth(obj)`: the new state, and whether the call threw. It
      throws only when a write is due, the object has vanished from the store,
      and the recorded health was not unknown (so the reset write throws too). */
  function HealthChecked(w: ControllerState, obj: AgentObject, outcome: CheckOutcome, now: int): (r: (ControllerState, bool))
    ensures r.1 ==> r.0 == w && obj.name !in w.objects
    ensures r.0.objects.Keys == w.objects.Keys
  {
    var current := RecordedHealth(obj);
    match HealthPatch(current, outcome, now)
    case None => (w, false)
    case Some(patch) =>
      match StatusWrite(w, obj.name, patch, now)
      case Some(w1) =>
        if outcome.Checked? then (w1.(events := w1.events + [HealthChangedEvent(obj.name, patch.health.value)]), false)
        else (w1, false)
      case None => (w, current != Unknown)
  }

  /** For a stored object the check never throws. A verdict that differs from
      the recorded health is written with one Healthy condition; an equal one
      writes nothing. An exception resets the health to unknown and keeps the
      stored conditions. */
  lemma HealthCheckWrites(w: ControllerState, obj: AgentObject, outcome: CheckOutcome, now: int)
    requires obj.name in w.objects
    ensures !HealthChecked(w, obj, outcome, now).1
    ensures outcome.Checked? && RecordedHealth(obj) == (if outcome.healthy then Healthy else Unhealthy) ==>
      HealthChecked(w, obj, outcome, now).0 == w
    ensures outcome.Checked? && RecordedHealth(obj) != (if outcome.healthy then Healthy else Unhealthy) ==>
      var s := HealthChecked(w, obj, outcome, now).0.objects[obj.name].status.value;
      s.health == Some(if outcome.healthy then Healthy else Unhealthy) &&
      s.conditions == Some([HealthCondition(outcome.healthy, now)]) &&
      HealthChecked(w, obj, outcome, now).0.events[|w.events| + 1] ==
        HealthChangedEvent(obj.name, if outcome.healthy then Healthy else Unhealthy)
    ensures outcome.CheckThrew? && RecordedHealth(obj) == Unknown ==> HealthChecked(w, obj, outcome, now).0 == w
    ensures outcome.CheckThrew? && RecordedHealth(obj) != Unknown ==>
      var s := HealthChecked(w, obj, outcome, now).0.objects[obj.name].status.value;
      s.health == Some(Unknown) && s.conditions == Merge(w.objects[obj.name].status, NO_STATUS, now).conditions
  {
  }

  /** The monitoring pass over the listed objects, in order; the first check
      that throws ends the pass. Returns the state and whether it ended early. */
  function Monitored(w: ControllerState, listed: seq<AgentObject>, probe: Probe, now: int): (ControllerState, bool)
    decreases |listed|
  {
    if listed == [] then (w, false)
    else
      var (w1, aborted) := Monitored(w, listed[..|listed| - 1], probe, now);
      if aborted then (w1, true)
      else HealthChecked(w1, listed[|listed| - 1], HealthOutcome(listed[|listed| - 1], probe), now)
  }

  /** Once the pass has ended early, the later objects change nothing. */
  lemma {:induction false} MonitorAbortSticks(w: ControllerState, listed: seq<AgentObject>, k: nat, probe: Probe, now: int)
    requires k <= |listed| && Monitored(w, listed[..k], probe, now).1
    ensures Monitored(w, listed, probe, now) == Monitored(w, listed[..k], probe, now)
    decreases |listed| - k
  {
    if k < |listed| {
      assert listed[..|listed| - 1][..k] == listed[..k];
      MonitorAbortSticks(w, listed[..|listed| - 1], k, probe, now);
    } else {
      assert listed[..k] == listed;
    }
  }

  /** The pass never adds or removes objects. */
  lemma {:induction false} MonitorKeepsObjects(w: ControllerState, listed: seq<AgentObject>, probe: Probe, now: int)
    ensures Monitored(w, listed, probe, now).0.objects.Keys == w.objects.Keys
    decreases |listed|
  {
    if listed != [] {
      MonitorKeepsObjects(w, listed[..|listed| - 1], probe, now);
    }
  }

  /** When every listed object is still stored, the pass checks all of them. */
  lemma {:induction false} MonitorCompletes(w: ControllerState, listed: seq<AgentObject>, probe: Probe, now: int)
    requires forall i :: 0 <= i < |listed| ==> listed[i].name in w.objects
    ensures !Monitored(w, listed, probe, now).1
    decreases |listed|
  {
    if listed != [] {
      var init := listed[..|listed| - 1];
      MonitorCompletes(w, init, probe, now);
      MonitorKeepsObjects(w, init, probe, now);
    }
  }

  // ---------------------------------------------------------------------------
  // The controller

  datatype WatchType = Added | Modified | Deleted | OtherWatchType(tag: string)

  datatype WatchEvent = WatchEvent(kind: WatchType, agent: AgentObject)

  class AgentController {
    var objects: map<string, AgentObject>
    var events: seq<ControllerEvent>
    const healthChecker: HealthChecker

    function Current(): ControllerState
      reads this
    {
      ControllerState(objects, events)
    }

    constructor ()
      ensures Current() == ControllerState(map[], [])
      ensures fresh(healthChecker) && healthChecker.Valid() && healthChecker.liveTimers == map[]
    {
      objects := map[];
      events := [];
      healthChecker := new HealthChecker();
    }

    /** `getAgent`: the stored object, or null. */
    function GetAgent(name: string): (o: Option<AgentObject>)
      reads this
      ensures o.Some? <==> name in objects
      ensures o.Some? ==> o.value == objects[name]
    {
      if name in objects then Some(objects[name]) else None
    }

    /** `registerAgent`: create the initial object and announce it. Creating a
        name that already exists is refused by the store and changes nothing. */
    method RegisterAgent(name: string, spec: AgentSpec, labels: map<string, string>, now: int) returns (created: bool)
      modifies this
      ensures created <==> name !in old(objects)
      ensures created ==>
        objects == old(objects)[name := InitialObject(name, spec, labels, now)] &&
        events == old(events) + [AgentRegisteredEvent(name, spec)]
      ensures !created ==> objects == old(objects) && events == old(events)
    {
      if name in objects {
        return false;
      }
      objects := objects[name := InitialObject(name, spec, labels, now)];
      events := events + [AgentRegisteredEvent(name, spec)];
      return true;
    }

    /** `unregisterAgent`: delete the object and announce it; deleting a missing
        name is refused and changes nothing. */
    method UnregisterAgent(name: string) returns (deleted: bool)
      modifies this
      ensures deleted <==> name in old(objects)
      ensures deleted ==> (objects == old(objects) - {name} && events == old(events) + [AgentUnregisteredEvent(name)])
      ensures !deleted ==> objects == old(objects) && events == old(events)
    {
      if name !in objects {
        return false;
      }
      objects := objects - {name};
      events := events + [AgentUnregisteredEvent(name)];
      return true;
    }

    /** `updateAgentStatus`: merge the patch into the stored status; a missing
        object throws and nothing is written. */
    method UpdateAgentStatus(name: string, patch: AgentStatus, now: int) returns (written: bool)
      modifies this
      ensures written <==> name in old(objects)
      ensures written ==> Current() == StatusWrite(old(Current()), name, patch, now).value
      ensures !written ==> Current() == old(Current())
    {
      if name !in objects {
        return false;
      }
      var merged := Merge(objects[name].status, patch, now);
      objects := objects[name := objects[name].(status := Some(merged))];
      events := events + [StatusUpdated(name, merged)];
      return true;
    }

    /** `reconcileAgent`: validate, start a Pending agent, record capabilities;
        on any failure mark the agent Failed. */
    method Reconcile(obj: AgentObject, now: int)
      modifies this
      ensures Current() == Reconciled(old(Current()), obj, now)
    {
      var name := obj.name;
      var error := ReconcileFailure(obj.spec);
      if error.None? {
        var ok := true;
        if PhaseOf(obj) == Some(Pending) {
          ok := UpdateAgentStatus(name, RunningPatch(now), now);
        }
        if ok {
          ok := UpdateAgentStatus(name, CapabilitiesPatch(CapabilityIds(obj.spec.value.capabilities.value)), now);
        }
        if !ok {
          error := Some(NotFoundError(name));
        }
      }
      if error.Some? {
        var written := UpdateAgentStatus(name, FailedPatch(error.value, now), now);
      }
    }

    /** `handleAgentEvent`: ADDED and MODIFIED are announced and reconciled,
        DELETED is only announced, any other type is ignored. */
    method HandleAgentEvent(event: WatchEvent, now: int)
      modifies this
      ensures event.kind.Added? ==>
        Current() == Reconciled(old(Current()).(events := old(events) + [AgentAdded(event.agent)]), event.agent, now)
      ensures event.kind.Modified? ==>
        Current() == Reconciled(old(Current()).(events := old(events) + [AgentModified(event.agent)]), event.agent, now)
      ensures event.kind.Deleted? ==> objects == old(objects) && events == old(events) + [AgentDeleted(event.agent)]
      ensures event.kind.OtherWatchType? ==> Current() == old(Current())
    {
      match event.kind
      case Added =>
        events := events + [AgentAdded(event.agent)];
        Reconcile(event.agent, now);
      case Modified =>
        events := events + [AgentModified(event.agent)];
        Reconcile(event.agent, now);
      case Deleted =>
        events := events + [AgentDeleted(event.agent)];
      case OtherWatchType(_) =>
    }

    /** `checkAgentHealth(obj)`: probe, and write the health only when it
        changed. `threw` tells whether the call ended in an exception. */
    method CheckAgentHealth(obj: AgentObject, probe: Probe, now: int) returns (threw: bool)
      modifies this
      ensures (Current(), threw) == HealthChecked(old(Current()), obj, HealthOutcome(obj, probe), now)
    {
      var name := obj.name;
      var current := RecordedHealth(obj);
      threw := false;
      var failed := false;
      if obj.spec.Some? {
        var healthy, tried := healthChecker.CheckAgent(obj.spec.value.endpoints, obj.spec.value.healthCheck, probe);
        var verdict := if healthy then Healthy else Unhealthy;
        if verdict != current {
          var written := UpdateAgentStatus(name, NO_STATUS.(health := Some(verdict), conditions := Some([HealthCondition(healthy, now)])), now);
          if written {
            events := events + [HealthChangedEvent(name, verdict)];
          } else {
            failed := true;
          }
        }
      } else {
        failed := true;
      }
      if failed && current != Unknown {
        var written := UpdateAgentStatus(name, UNKNOWN_PATCH, now);
        threw := !written;
      }
    }

    /** One firing of the monitoring interval over the listed objects; the
        first check that throws ends the pass. */
    method MonitorTick(listed: seq<AgentObject>, probe: Probe, now: int)
      modifies this
      ensures Current() == Monitored(old(Current()), listed, probe, now).0
    {
      var i := 0;
      while i < |listed|
        invariant 0 <= i <= |listed|
        invariant Monitored(old(Current()), listed[..i], probe, now) == (Current(), false)
      {
        var threw := CheckAgentHealth(listed[i], probe, now);
        assert listed[..i + 1][..i] == listed[..i];
        if threw {
          MonitorAbortSticks(old(Current()), listed, i + 1, probe, now);
          return;
        }
        i := i + 1;
      }
      assert listed[..i] == listed;
    }

    /** `stop`: clear every periodic health check and announce it. */
    method Stop()
      requires healthChecker.Valid()
      modifies this, healthChecker
      ensures healthChecker.Valid() && healthChecker.liveTimers == map[]
      ensures objects == old(objects) && events == old(events) + [StoppedEvent]
    {
      healthChecker.Stop();
      events := events + [StoppedEvent];
    }
  }
}
