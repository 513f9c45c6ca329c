/**
 * Derived status of pods, containers and component statuses: the values the
 * `STATUS`, `READY` and `RESTARTS` columns are computed from.
 */
module Status {
  import opened Wrappers
  import opened Strings

  const PodScheduledCondition := "PodScheduled"
  const PodInitializing := "PodInitializing"
  const SchedulingGated := "SchedulingGated"
  const HealthyCondition := "Healthy"

  datatype Container = Container(name: string, restartPolicy: Option<string>)

  datatype Terminated = Terminated(exitCode: int, signal: Option<int>, reason: Option<string>)
  datatype Waiting = Waiting(reason: Option<string>)
  datatype ContainerState = ContainerState(terminated: Option<Terminated>, waiting: Option<Waiting>)
  datatype ContainerStatus = ContainerStatus(name: string, ready: bool, restartCount: int, state: Option<ContainerState>)

  datatype PodCondition = PodCondition(conditionType: string, status: string, reason: Option<string>)

  datatype PodSpec = PodSpec(containers: seq<Container>, initContainers: Option<seq<Container>>)
  datatype PodStatus = PodStatus(
    phase: Option<string>,
    reason: Option<string>,
    conditions: Option<seq<PodCondition>>,
    containerStatuses: Option<seq<ContainerStatus>>,
    initContainerStatuses: Option<seq<ContainerStatus>>)
  datatype Pod = Pod(spec: Option<PodSpec>, status: Option<PodStatus>)

  // ---------------------------------------------------------------------------
  // Containers

  /** `is_restartable`: a container whose own restart policy is exactly "Always" (a sidecar). */
  predicate IsRestartable(c: Container) {
    c.restartPolicy == Some("Always")
  }

  /** `terminated`: the terminated state, when there is a state and it is terminated. */
  function TerminatedOf(st: ContainerStatus): (r: Option<Terminated>)
    ensures r.Some? <==> st.state.Some? && st.state.value.terminated.Some?
    ensures r.Some? ==> r == st.state.value.terminated
  {
    match st.state
    case None => None
    case Some(state) => state.terminated
  }

  /** `waiting`: the waiting state, when there is a state and it is waiting. */
  function WaitingOf(st: ContainerStatus): (r: Option<Waiting>)
    ensures r.Some? <==> st.state.Some? && st.state.value.waiting.Some?
    ensures r.Some? ==> r == st.state.value.waiting
  {
    match st.state
    case None => None
    case Some(state) => state.waiting
  }

  /** `TerminatedExt::reason`: the recorded reason, else the signal, else the exit code. */
  function TerminationReason(t: Terminated): string {
    match t.reason
    case Some(reason) => reason
    case None =>
      match t.signal
      case Some(signal) => "Signal:" + IntToString(signal)
      case None => "ExitCode:" + IntToString(t.exitCode)
  }

  /**
   * Without a recorded reason the text names its origin: "Signal:" exactly
   * when a signal is recorded, "ExitCode:" otherwise, and the number that
   * follows is the recorded one.
   */
  lemma TerminationReasonFallback(t: Terminated)
    requires t.reason.None?
    ensures StartsWith(TerminationReason(t), "Signal:") <==> t.signal.Some?
    ensures t.signal.Some? ==> TerminationReason(t)[7..] == IntToString(t.signal.value)
    ensures t.signal.None? ==>
              StartsWith(TerminationReason(t), "ExitCode:") && TerminationReason(t)[9..] == IntToString(t.exitCode)
  {
    var r := TerminationReason(t);
    if t.signal.None? {
      assert r[..7] == "ExitCod";
    }
  }

  /** `terminated_reason`: the reason of a terminated container, `None` for any other state. */
  function TerminatedReason(st: ContainerStatus): (r: Option<string>)
    ensures r.Some? <==> TerminatedOf(st).Some?
    ensures r.Some? ==> r.value == TerminationReason(TerminatedOf(st).value)
  {
    match TerminatedOf(st)
    case None => None
    case Some(t) => Some(TerminationReason(t))
  }

  /** `waiting_reason`: the waiting reason, except the routine "PodInitializing". */
  function WaitingReason(st: ContainerStatus): (r: Option<string>)
    ensures r.Some? <==> WaitingOf(st).Some? && WaitingOf(st).value.reason.Some?
                         && WaitingOf(st).value.reason.value != PodInitializing
    ensures r.Some? ==> r == WaitingOf(st).value.reason
    ensures r != Some(PodInitializing)
  {
    match WaitingOf(st)
    case None => None
    case Some(w) =>
      match w.reason
      case None => None
      case Some(reason) => if reason != PodInitializing then Some(reason) else None
  }

  // ---------------------------------------------------------------------------
  // Pods

  function ContainerStatuses(pod: Pod): seq<ContainerStatus> {
    if pod.status.Some? && pod.status.value.containerStatuses.Some? then pod.status.value.containerStatuses.value else []
  }

  function InitContainerStatuses(pod: Pod): seq<ContainerStatus> {
    if pod.status.Some? && pod.status.value.initContainerStatuses.Some? then pod.status.value.initContainerStatuses.value else []
  }

  function Containers(pod: Pod): seq<Container> {
    if pod.spec.Some? then pod.spec.value.containers else []
  }

  function InitContainers(pod: Pod): seq<Container> {
    if pod.spec.Some? && pod.spec.value.initContainers.Some? then pod.spec.value.initContainers.value else []
  }

  /** The ready flag of each status, in order. */
  function ReadyFlags(statuses: seq<ContainerStatus>): (flags: seq<bool>)
    ensures |flags| == |statuses|
    ensures forall i :: 0 <= i < |statuses| ==> flags[i] == statuses[i].ready
  {
    seq(|statuses|, i requires 0 <= i < |statuses| => statuses[i].ready)
  }

  /** The number of statuses with the ready flag set: how often `true` occurs among the flags. */
  function CountReady(statuses: seq<ContainerStatus>): (n: nat)
    ensures n == multiset(ReadyFlags(statuses))[true]
    ensures n <= |statuses|
    ensures n == 0 <==> forall i :: 0 <= i < |statuses| ==> !statuses[i].ready
    ensures n == |statuses| <==> forall i :: 0 <= i < |statuses| ==> statuses[i].ready
  {
    if statuses == [] then 0
    else
      var rest := CountReady(statuses[1..]);
      assert forall i :: 1 <= i < |statuses| ==> statuses[i] == statuses[1..][i - 1];
      assert ReadyFlags(statuses) == [statuses[0].ready] + ReadyFlags(statuses[1..]);
      (if statuses[0].ready then 1 else 0) + rest
  }

  /** One status counts exactly when it is ready. */
  lemma CountReadyOne(status: ContainerStatus)
    ensures CountReady([status]) == if status.ready then 1 else 0
  {
    assert [status][1..] == [];
  }

  /** The count over two runs of statuses is the sum of their counts. */
  lemma {:induction false} CountReadyAppend(a: seq<ContainerStatus>, b: seq<ContainerStatus>)
    decreases |a|
    ensures CountReady(a + b) == CountReady(a) + CountReady(b)
  {
    if a == [] {
      assert a + b == b;
    } else {
      assert (a + b)[0] == a[0];
      assert (a + b)[1..] == a[1..] + b;
      CountReadyAppend(a[1..], b);
    }
  }

  /** `ready_containers`: how many of the container statuses (none when absent) are ready. */
  function ReadyContainers(pod: Pod): (n: nat)
    ensures n == multiset(ReadyFlags(ContainerStatuses(pod)))[true]
    ensures pod.status.None? || pod.status.value.containerStatuses.None? ==> n == 0
    ensures n <= |ContainerStatuses(pod)|
    ensures n == |ContainerStatuses(pod)| <==> forall i :: 0 <= i < |ContainerStatuses(pod)| ==> ContainerStatuses(pod)[i].ready
  {
    CountReady(ContainerStatuses(pod))
  }

  /** Whether each container is restartable, in order. */
  function RestartableFlags(containers: seq<Container>): (flags: seq<bool>)
    ensures |flags| == |containers|
    ensures forall i :: 0 <= i < |containers| ==> flags[i] == IsRestartable(containers[i])
  {
    seq(|containers|, i requires 0 <= i < |containers| => IsRestartable(containers[i]))
  }

  /** The number of restartable (sidecar) containers: how often `true` occurs among the flags. */
  function CountRestartable(containers: seq<Container>): (n: nat)
    ensures n == multiset(RestartableFlags(containers))[true]
    ensures n <= |containers|
    ensures n == 0 <==> forall i :: 0 <= i < |containers| ==> !IsRestartable(containers[i])
    ensures n == |containers| <==> forall i :: 0 <= i < |containers| ==> IsRestartable(containers[i])
  {
    if containers == [] then 0
    else
      var rest := CountRestartable(containers[1..]);
      assert forall i :: 1 <= i < |containers| ==> containers[i] == containers[1..][i - 1];
      assert RestartableFlags(containers) == [IsRestartable(containers[0])] + RestartableFlags(containers[1..]);
      (if IsRestartable(containers[0]) then 1 else 0) + rest
  }

  /** One container counts exactly when it is restartable. */
  lemma CountRestartableOne(c: Container)
    ensures CountRestartable([c]) == if IsRestartable(c) then 1 else 0
  {
    assert [c][1..] == [];
  }

  /** The count over two runs of containers is the sum of their counts. */
  lemma {:induction false} CountRestartableAppend(a: seq<Container>, b: seq<Container>)
    decreases |a|
    ensures CountRestartable(a + b) == CountRestartable(a) + CountRestartable(b)
  {
    if a == [] {
      assert a + b == b;
    } else {
      assert (a + b)[0] == a[0];
      assert (a + b)[1..] == a[1..] + b;
      CountRestartableAppend(a[1..], b);
    }
  }

  /**
   * `total_containers`: the regular containers plus the sidecars among the
   * init containers; ordinary init containers are not counted.
   */
  function TotalContainers(pod: Pod): (n: nat)
    ensures n == |Containers(pod)| + multiset(RestartableFlags(InitContainers(pod)))[true]
    ensures |Containers(pod)| <= n <= |Containers(pod)| + |InitContainers(pod)|
    ensures n == |Containers(pod)| <==> forall i :: 0 <= i < |InitContainers(pod)| ==> !IsRestartable(InitContainers(pod)[i])
    ensures n == |Containers(pod)| + |InitContainers(pod)| <==> forall i :: 0 <= i < |InitContainers(pod)| ==> IsRestartable(InitContainers(pod)[i])
  {
    |Containers(pod)| + CountRestartable(InitContainers(pod))
  }

  /** The sum of the restart counts. */
  function SumRestarts(statuses: seq<ContainerStatus>): int {
    if statuses == [] then 0 else statuses[0].restartCount + SumRestarts(statuses[1..])
  }

  /** Summing is additive over a split of the statuses. */
  lemma {:induction false} SumRestartsAppend(a: seq<ContainerStatus>, b: seq<ContainerStatus>)
    ensures SumRestarts(a + b) == SumRestarts(a) + SumRestarts(b)
  {
    if a != [] {
      assert (a + b)[1..] == a[1..] + b;
      SumRestartsAppend(a[1..], b);
    } else {
      assert a + b == b;
    }
  }

  lemma {:induction false} SumRestartsBounds(statuses: seq<ContainerStatus>, i: nat)
    requires forall j :: 0 <= j < |statuses| ==> statuses[j].restartCount >= 0
    requires i < |statuses|
    ensures SumRestarts(statuses) >= statuses[i].restartCount >= 0
  {
    if i > 0 {
      SumRestartsBounds(statuses[1..], i - 1);
      SumRestartsNonNegative(statuses);
    } else {
      SumRestartsNonNegative(statuses[1..]);
    }
  }

  lemma {:induction false} SumRestartsNonNegative(statuses: seq<ContainerStatus>)
    requires forall j :: 0 <= j < |statuses| ==> statuses[j].restartCount >= 0
    ensures SumRestarts(statuses) >= 0
  {
    if statuses != [] {
      SumRestartsNonNegative(statuses[1..]);
    }
  }

  /** `restarts`: the restart counts of all containers added up. */
  function Restarts(pod: Pod): int {
    SumRestarts(ContainerStatuses(pod))
  }

  /** With non-negative counts the total is at least every single container's count. */
  lemma RestartsBounds(pod: Pod)
    requires forall j :: 0 <= j < |ContainerStatuses(pod)| ==> ContainerStatuses(pod)[j].restartCount >= 0
    ensures Restarts(pod) >= 0
    ensures forall j :: 0 <= j < |ContainerStatuses(pod)| ==> Restarts(pod) >= ContainerStatuses(pod)[j].restartCount
  {
    var statuses := ContainerStatuses(pod);
    SumRestartsNonNegative(statuses);
    forall j | 0 <= j < |statuses| ensures SumRestarts(statuses) >= statuses[j].restartCount {
      SumRestartsBounds(statuses, j);
    }
  }

  /**
   * The first condition of a given type, for any kind of condition whose type
   * `typeOf` reads: pods and component statuses both look a condition up this way.
   */
  function FirstOfType<C>(conditions: seq<C>, typeOf: C -> string, conditionType: string): (r: Option<C>)
    ensures r.None? <==> forall i :: 0 <= i < |conditions| ==> typeOf(conditions[i]) != conditionType
    ensures forall i :: FirstAt(conditions, typeOf, conditionType, i) ==> r == Some(conditions[i])
    ensures r.Some? ==> exists i :: 0 <= i < |conditions| && conditions[i] == r.value
                          && (forall j :: 0 <= j < i ==> typeOf(conditions[j]) != conditionType)
    ensures r.Some? ==> typeOf(r.value) == conditionType
  {
    if conditions == [] then None
    else if typeOf(conditions[0]) == conditionType then Some(conditions[0])
    else
      var r := FirstOfType(conditions[1..], typeOf, conditionType);
      assert forall i :: 1 <= i < |conditions| ==> conditions[i] == conditions[1..][i - 1];
      assert forall i :: FirstAt(conditions, typeOf, conditionType, i) ==> r == Some(conditions[i]) by {
        forall i | FirstAt(conditions, typeOf, conditionType, i) ensures r == Some(conditions[i]) {
          assert i > 0;
          assert FirstAt(conditions[1..], typeOf, conditionType, i - 1);
        }
      }
      assert r.Some? ==> exists i :: 0 <= i < |conditions| && conditions[i] == r.value
                          && (forall j :: 0 <= j < i ==> typeOf(conditions[j]) != conditionType) by {
        if r.Some? {
          var k :| 0 <= k < |conditions| - 1 && conditions[1..][k] == r.value
                   && forall j :: 0 <= j < k ==> typeOf(conditions[1..][j]) != conditionType;
          assert conditions[k + 1] == r.value;
        }
      }
      r
  }

  /** Position `i` holds the first condition of the type. */
  predicate FirstAt<C>(conditions: seq<C>, typeOf: C -> string, conditionType: string, i: int) {
    0 <= i < |conditions| && typeOf(conditions[i]) == conditionType
    && forall j :: 0 <= j < i ==> typeOf(conditions[j]) != conditionType
  }

  function PodConditionType(c: PodCondition): string {
    c.conditionType
  }

  /** `pod_scheduled_reason`: the reason of the first "PodScheduled" condition. */
  function PodScheduledReason(pod: Pod): (r: Option<string>)
    ensures r.Some? ==> pod.status.Some? && pod.status.value.conditions.Some?
                        && FirstOfType(pod.status.value.conditions.value, PodConditionType, PodScheduledCondition).Some?
    ensures pod.status.Some? && pod.status.value.conditions.Some? ==>
              var conditions := pod.status.value.conditions.value;
              forall i :: FirstAt(conditions, PodConditionType, PodScheduledCondition, i) ==> r == conditions[i].reason
  {
    if pod.status.None? || pod.status.value.conditions.None? then None
    else
      match FirstOfType(pod.status.value.conditions.value, PodConditionType, PodScheduledCondition)
      case None => None
      case Some(c) => c.reason
  }

  /**
   * Whether an init-container status takes part in the init status: it has
   * not terminated, or terminated with a non-zero code, and an init container
   * of the same name is restartable.
   */
  predicate InitQualifies(st: ContainerStatus, inits: seq<Container>) {
    (TerminatedOf(st).None? || TerminatedOf(st).value.exitCode != 0)
    && exists c :: c in inits && c.name == st.name && IsRestartable(c)
  }

  /** The text shown for the status at position `idx`. */
  function InitValue(idx: nat, st: ContainerStatus, total: nat): string {
    match TerminatedReason(st)
    case Some(reason) => reason
    case None =>
      match WaitingReason(st)
      case Some(reason) => reason
      case None => NatToString(idx) + "/" + NatToString(total)
  }

  /** The value of the last qualifying status among the first `|statuses|`. */
  function LastInitValue(statuses: seq<ContainerStatus>, inits: seq<Container>, total: nat): (r: Option<string>)
    ensures r.None? <==> forall i :: 0 <= i < |statuses| ==> !InitQualifies(statuses[i], inits)
  {
    if statuses == [] then None
    else
      var last := |statuses| - 1;
      if InitQualifies(statuses[last], inits) then Some(InitValue(last, statuses[last], total))
      else
        var r := LastInitValue(statuses[..last], inits, total);
        assert forall i :: 0 <= i < last ==> statuses[..last][i] == statuses[i];
        r
  }

  /** The value is that of the last qualifying status, at its position. */
  lemma {:induction false} LastInitValueIsLast(statuses: seq<ContainerStatus>, inits: seq<Container>, total: nat, i: nat)
    requires i < |statuses| && InitQualifies(statuses[i], inits)
    requires forall j :: i < j < |statuses| ==> !InitQualifies(statuses[j], inits)
    ensures LastInitValue(statuses, inits, total) == Some(InitValue(i, statuses[i], total))
  {
    var last := |statuses| - 1;
    if i < last {
      var init := statuses[..last];
      assert init[i] == statuses[i];
      assert forall j :: i < j < last ==> init[j] == statuses[j];
      LastInitValueIsLast(init, inits, total, i);
    }
  }

  /**
   * `init_container_kubectl_status`: the last qualifying init-container
   * status, by its termination reason, else its waiting reason, else its
   * position over the number of init containers.
   */
  function InitContainerStatus(pod: Pod): (r: Option<string>)
    ensures var statuses := InitContainerStatuses(pod);
            r.None? <==> forall i :: 0 <= i < |statuses| ==> !InitQualifies(statuses[i], InitContainers(pod))
  {
    LastInitValue(InitContainerStatuses(pod), InitContainers(pod), |InitContainers(pod)|)
  }

  /**
   * The filter keeps the restartable init containers, although its comment
   * says sidecars are ignored: a pod whose init containers are all ordinary
   * never reports an init status, even while one of them is failing.
   */
  lemma OrdinaryInitContainersNeverReport(pod: Pod)
    requires forall i :: 0 <= i < |InitContainers(pod)| ==> !IsRestartable(InitContainers(pod)[i])
    ensures InitContainerStatus(pod).None?
  {
  }

  /** A waiting sidecar is reported by its waiting reason. */
  lemma WaitingSidecarReports(name: string, reason: string)
    requires reason != PodInitializing
    ensures var sidecar := Container(name, Some("Always"));
            var st := ContainerStatus(name, false, 0, Some(ContainerState(None, Some(Waiting(Some(reason))))));
            var pod := Pod(Some(PodSpec([], Some([sidecar]))), Some(PodStatus(None, None, None, None, Some([st]))));
            InitContainerStatus(pod) == Some(reason) && KubectlStatus(pod) == "Init:" + reason
  {
    var sidecar := Container(name, Some("Always"));
    var st := ContainerStatus(name, false, 0, Some(ContainerState(None, Some(Waiting(Some(reason))))));
    assert sidecar in [sidecar];
    assert InitQualifies(st, [sidecar]);
  }

  /** The status before init containers are considered: phase, then pod reason, then a scheduling gate. */
  function PodReason(pod: Pod): (r: string)
    ensures PodScheduledReason(pod) == Some(SchedulingGated) ==> r == SchedulingGated
    ensures PodScheduledReason(pod) != Some(SchedulingGated) && pod.status.Some? && pod.status.value.reason.Some? ==>
              r == pod.status.value.reason.value
    ensures PodScheduledReason(pod) != Some(SchedulingGated) && (pod.status.None? || pod.status.value.reason.None?) ==>
              r == if pod.status.Some? && pod.status.value.phase.Some? then pod.status.value.phase.value else ""
  {
    var phase := if pod.status.Some? && pod.status.value.phase.Some? then pod.status.value.phase.value else "";
    var reason := if pod.status.Some? && pod.status.value.reason.Some? then pod.status.value.reason.value else phase;
    match PodScheduledReason(pod)
    case Some(scheduled) => if scheduled == SchedulingGated then scheduled else reason
    case None => reason
  }

  /** `kubectl_status`: an init status, prefixed by "Init:", replaces everything else. */
  function KubectlStatus(pod: Pod): (r: string)
    ensures InitContainerStatus(pod).Some? ==> r == "Init:" + InitContainerStatus(pod).value
    ensures InitContainerStatus(pod).None? ==> r == PodReason(pod)
  {
    match InitContainerStatus(pod)
    case Some(init) => "Init:" + init
    case None => PodReason(pod)
  }

  // ---------------------------------------------------------------------------
  // Component statuses

  datatype ComponentCondition = ComponentCondition(conditionType: string, status: string, message: Option<string>, error: Option<string>)
  datatype ComponentStatus = ComponentStatus(conditions: Option<seq<ComponentCondition>>)

  function ComponentConditionType(c: ComponentCondition): string {
    c.conditionType
  }

  /** `condition`: the first condition of the type, and none when the status has no conditions. */
  function Condition(cs: ComponentStatus, conditionType: string): (r: Option<ComponentCondition>)
    ensures cs.conditions.None? ==> r.None?
    ensures cs.conditions.Some? ==> r == FirstOfType(cs.conditions.value, ComponentConditionType, conditionType)
  {
    match cs.conditions
    case None => None
    case Some(conditions) => FirstOfType(conditions, ComponentConditionType, conditionType)
  }

  /** `healthy`: the first "Healthy" condition. */
  function Healthy(cs: ComponentStatus): (r: Option<ComponentCondition>)
    ensures r.Some? ==> r.value.conditionType == HealthyCondition
    ensures r.None? <==> cs.conditions.None?
                         || forall i :: 0 <= i < |cs.conditions.value| ==> cs.conditions.value[i].conditionType != HealthyCondition
    ensures cs.conditions.Some? ==>
              forall i :: FirstAt(cs.conditions.value, ComponentConditionType, HealthyCondition, i) ==> r == Some(cs.conditions.value[i])
  {
    Condition(cs, HealthyCondition)
  }

  /** `is_true`: the status is exactly "True", with that capitalisation. */
  predicate IsTrue(c: ComponentCondition) {
    c.status == "True"
  }

  /** The comparison is case-sensitive. */
  lemma IsTrueCaseSensitive(c: ComponentCondition)
    requires c.status == "true" || c.status == "TRUE"
    ensures !IsTrue(c)
  {
  }
}
