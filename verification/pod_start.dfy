/**
 * The decisions kubeluigi takes while it watches a Kubernetes Job: whether the
 * pods backing the job have started, are still waiting (for container
 * creation or for the cluster autoscaler), or have failed; and whether the
 * job as a whole has completed.  The pod list and the job status the source
 * reads from the Kubernetes API are inputs here.
 */
module PodStart {

  import opened Wrappers
  import Text

  /** A pod condition (`V1PodCondition`): both fields are optional in the API. */
  datatype Condition = Condition(reason: Option<string>, message: Option<string>)

  /** The `waiting` or `terminated` part of a container state, with its optional reason. */
  datatype StateDetail = StateDetail(reason: Option<string>)

  /** A container status: its `state.waiting` and `state.terminated` parts, each possibly absent. */
  datatype ContainerStatus = ContainerStatus(waiting: Option<StateDetail>, terminated: Option<StateDetail>)

  /**
   * A pod as `has_job_started` sees it.  A `None` or empty list of container
   * statuses or conditions is the empty sequence: the source skips both alike.
   */
  datatype Pod = Pod(name: string, containerStatuses: seq<ContainerStatus>, conditions: seq<Condition>)

  /** Why a job is declared failed; each case is one `raise FailedJob` of the source. */
  datatype FailureCause =
    | UnexpectedWaiting(status: ContainerStatus)
    | ContainerError(status: ContainerStatus)
    | ScaleUpFailed(condition: Condition)

  /** The three outcomes of `has_job_started`: True, False, or `FailedJob` raised. */
  datatype Verdict =
    | Started
    | NotStarted
    | Failed(job: string, pod: string, cause: FailureCause)

  const Unschedulable := "Unschedulable"
  const ContainersNotReady := "ContainersNotReady"
  const ContainerCreating := "ContainerCreating"
  const NodesAvailable := " nodes are available"
  /** The cluster autoscaler's refusal to add a node for the pod. */
  const NoScaleUp := "pod didn't trigger scale-up (it wouldn"

  // ---------------------------------------------------------------------------
  // is_pod_waiting_for_scale_up and has_scaling_failed
  // ---------------------------------------------------------------------------

  /**
   * `re.match(r"(\d)\/(\d) nodes are available.*", msg)`: the two single
   * digits captured at the very start of the message, as integers, or `None`.
   */
  function MatchNodesAvailable(msg: string): Option<(nat, nat)> {
    if |msg| >= 3 && Text.IsDigit(msg[0]) && msg[1] == '/' && Text.IsDigit(msg[2])
       && Text.IsPrefix(NodesAvailable, msg[3..])
    then Some((Text.DigitValue(msg[0]), Text.DigitValue(msg[2])))
    else None
  }

  /** The text `"<d1>/<d2> nodes are available"` that the pattern looks for. */
  function NodesAvailablePrefix(d1: nat, d2: nat): string
    requires d1 < 10 && d2 < 10
  {
    [Text.DigitChar(d1), '/', Text.DigitChar(d2)] + NodesAvailable
  }

  /** The pattern matches exactly the messages that begin with `"<d1>/<d2> nodes are available"` for single digits. */
  lemma MatchNodesAvailableIff(msg: string, d1: nat, d2: nat)
    ensures MatchNodesAvailable(msg) == Some((d1, d2))
        <==> d1 < 10 && d2 < 10 && Text.IsPrefix(NodesAvailablePrefix(d1, d2), msg)
  {
    if d1 < 10 && d2 < 10 && Text.IsPrefix(NodesAvailablePrefix(d1, d2), msg) {
      var p := NodesAvailablePrefix(d1, d2);
      assert msg[0] == p[0] && msg[1] == p[1] && msg[2] == p[2];
      assert msg[3..][..|NodesAvailable|] == p[3..];
    }
    if MatchNodesAvailable(msg) == Some((d1, d2)) {
      assert msg[..3 + |NodesAvailable|] == NodesAvailablePrefix(d1, d2);
    }
  }

  /** Messages that begin with a two-digit node count are not recognised. */
  lemma MultiDigitCountNotMatched()
    ensures MatchNodesAvailable("10/12" + NodesAvailable + ": 12 Insufficient cpu.") == None
  {
    var msg := "10/12" + NodesAvailable + ": 12 Insufficient cpu.";
    assert msg[1] == '0';
  }

  /**
   * `is_pod_waiting_for_scale_up`.  `Some(b)` is a Python bool, `None` is the
   * implicit `None` returned when the message does not match the pattern.
   * The source evaluates `"Unschedulable" in condition.reason`, which raises
   * on an absent reason; callers must supply one.
   */
  function WaitingForScaleUp(c: Condition): (r: Option<bool>)
    requires c.reason.Some?
    ensures r == Some(true) <==>
      && Text.Contains(c.reason.value, Unschedulable)
      && c.message.Some? && c.message.value != ""
      && exists d1, d2 :: MatchNodesAvailable(c.message.value) == Some((d1, d2)) && d1 <= d2
    ensures r == None <==>
      && Text.Contains(c.reason.value, Unschedulable)
      && c.message.Some? && c.message.value != ""
      && MatchNodesAvailable(c.message.value) == None
  {
    if !Text.Contains(c.reason.value, Unschedulable) || c.message.None? || c.message.value == "" then
      Some(false)
    else
      match MatchNodesAvailable(c.message.value)
      case None => None
      case Some((current, target)) => Some(current <= target)
  }

  /** `has_scaling_failed`: the autoscaler has declined to add a node for this pod. */
  function HasScalingFailed(c: Condition): (r: bool)
    requires c.reason.Some?
    ensures r <==>
      && (exists i :: Text.OccursAt(c.reason.value, Unschedulable, i))
      && c.message.Some? && c.message.value != ""
      && (exists j :: Text.OccursAt(c.message.value, NoScaleUp, j))
  {
    Text.ContainsIff(c.reason.value, Unschedulable);
    Text.ContainsIff(c.message.GetOr(""), NoScaleUp);
    Text.Contains(c.reason.value, Unschedulable) && c.message.Some? && c.message.value != ""
    && Text.Contains(c.message.value, NoScaleUp)
  }

  // ---------------------------------------------------------------------------
  // has_job_started: the specification, one pod element at a time
  // ---------------------------------------------------------------------------

  /** The failure one container status reveals: a waiting reason other than ContainerCreating, or termination with reason Error. */
  function StatusFailure(s: ContainerStatus): Option<FailureCause> {
    if s.waiting.Some? && s.waiting.value.reason != Some(ContainerCreating) then Some(UnexpectedWaiting(s))
    else if s.terminated.Some? && s.terminated.value.reason == Some("Error") then Some(ContainerError(s))
    else None
  }

  /** The first failure among a pod's container statuses, in order. */
  function StatusesFailure(ss: seq<ContainerStatus>): Option<FailureCause> {
    if ss == [] then None
    else if StatusFailure(ss[0]).Some? then StatusFailure(ss[0])
    else StatusesFailure(ss[1..])
  }

  /** The verdict one pod condition forces, or `None` when the scan moves on. */
  function ConditionVerdict(job: string, pod: string, c: Condition): Option<Verdict> {
    if c.reason == Some(ContainersNotReady) then Some(NotStarted)
    else if c.reason == Some(Unschedulable) && WaitingForScaleUp(c) == Some(true) then
      if HasScalingFailed(c) then Some(Failed(job, pod, ScaleUpFailed(c))) else Some(NotStarted)
    else None
  }

  /** The first verdict among a pod's conditions, in order. */
  function ConditionsVerdict(job: string, pod: string, cs: seq<Condition>): Option<Verdict> {
    if cs == [] then None
    else if ConditionVerdict(job, pod, cs[0]).Some? then ConditionVerdict(job, pod, cs[0])
    else ConditionsVerdict(job, pod, cs[1..])
  }

  /** One pod: its container statuses are examined before its conditions. */
  function PodVerdict(job: string, p: Pod): Option<Verdict> {
    match StatusesFailure(p.containerStatuses)
    case Some(cause) => Some(Failed(job, p.name, cause))
    case None => ConditionsVerdict(job, p.name, p.conditions)
  }

  /** The pods in order: the first pod that forces a verdict decides; otherwise the job has started. */
  function ScanPods(job: string, pods: seq<Pod>): Verdict {
    if pods == [] then Started
    else if PodVerdict(job, pods[0]).Some? then PodVerdict(job, pods[0]).value
    else ScanPods(job, pods[1..])
  }

  /** The pods examined: the first listing, or the second when the first was empty. */
  function PodsToScan(fetched: seq<Pod>, refetched: seq<Pod>): seq<Pod> {
    if fetched == [] then refetched else fetched
  }

  // ---------------------------------------------------------------------------
  // has_job_started: the nested loops of the source
  // ---------------------------------------------------------------------------

  /**
   * `has_job_started`.  `fetched` is the pod list of the first
   * `get_job_pods` call and `refetched` that of the call made after the
   * five-second pause when the first list was empty.
   */
  method HasJobStarted(job: string, fetched: seq<Pod>, refetched: seq<Pod>) returns (v: Verdict)
    ensures v == ScanPods(job, PodsToScan(fetched, refetched))
  {
    var pods := fetched;
    if |pods| == 0 {
      pods := refetched;
    }
    for i := 0 to |pods|
      invariant ScanPods(job, pods) == ScanPods(job, pods[i..])
    {
      var pod := pods[i];
      var statuses := pod.containerStatuses;
      for j := 0 to |statuses|
        invariant StatusesFailure(statuses) == StatusesFailure(statuses[j..])
      {
        var status := statuses[j];
        assert statuses[j..][1..] == statuses[j + 1..];
        if status.waiting.Some? {
          if status.waiting.value.reason != Some(ContainerCreating) {
            return Failed(job, pod.name, UnexpectedWaiting(status));
          }
        }
        if status.terminated.Some? {
          if status.terminated.value.reason == Some("Error") {
            return Failed(job, pod.name, ContainerError(status));
          }
        }
      }
      var conditions := pod.conditions;
      for j := 0 to |conditions|
        invariant ConditionsVerdict(job, pod.name, conditions) == ConditionsVerdict(job, pod.name, conditions[j..])
      {
        var cond := conditions[j];
        assert conditions[j..][1..] == conditions[j + 1..];
        if cond.reason == Some(ContainersNotReady) {
          return NotStarted;
        }
        if cond.reason == Some(Unschedulable) {
          if WaitingForScaleUp(cond) == Some(true) {
            if HasScalingFailed(cond) {
              return Failed(job, pod.name, ScaleUpFailed(cond));
            }
            return NotStarted;
          }
        }
      }
      assert pods[i..][1..] == pods[i + 1..];
    }
    return Started;
  }

  // ---------------------------------------------------------------------------
  // has_job_started: properties
  // ---------------------------------------------------------------------------

  /** The job counts as started exactly when no pod forces a verdict; in particular with no pods at all. */
  lemma {:induction false} StartedIff(job: string, pods: seq<Pod>)
    ensures ScanPods(job, pods) == Started <==> forall i :: 0 <= i < |pods| ==> PodVerdict(job, pods[i]).None?
  {
    if pods != [] {
      StartedIff(job, pods[1..]);
      assert forall i :: 1 <= i < |pods| ==> pods[i] == pods[1..][i - 1];
      if PodVerdict(job, pods[0]).Some? {
        ForcedVerdictIsNotStarted(job, pods[0]);
      }
    }
  }

  /** A verdict a pod forces is never "started". */
  lemma ForcedVerdictIsNotStarted(job: string, p: Pod)
    requires PodVerdict(job, p).Some?
    ensures PodVerdict(job, p).value != Started
  {
    if StatusesFailure(p.containerStatuses).None? {
      ConditionsNeverStarted(job, p.name, p.conditions);
    }
  }

  lemma {:induction false} ConditionsNeverStarted(job: string, pod: string, cs: seq<Condition>)
    ensures ConditionsVerdict(job, pod, cs) != Some(Started)
  {
    if cs != [] && ConditionVerdict(job, pod, cs[0]).None? {
      ConditionsNeverStarted(job, pod, cs[1..]);
    }
  }

  /**
   * The scan stops at the first pod that forces a verdict: that verdict is
   * the result, and whatever later pods would reveal (a failure included)
   * is never looked at.
   */
  lemma {:induction false} FirstForcedVerdictDecides(job: string, pods: seq<Pod>, k: nat)
    requires k < |pods|
    requires forall i :: 0 <= i < k ==> PodVerdict(job, pods[i]).None?
    requires PodVerdict(job, pods[k]).Some?
    ensures ScanPods(job, pods) == PodVerdict(job, pods[k]).value
  {
    if k > 0 {
      assert pods[1..][k - 1] == pods[k];
      FirstForcedVerdictDecides(job, pods[1..], k - 1);
    }
  }

  /** Any failing container status makes its list report a failure. */
  lemma {:induction false} FailingStatusIsFound(ss: seq<ContainerStatus>, j: nat)
    requires j < |ss| && StatusFailure(ss[j]).Some?
    ensures StatusesFailure(ss).Some?
  {
    if j > 0 && StatusFailure(ss[0]).None? {
      assert ss[1..][j - 1] == ss[j];
      FailingStatusIsFound(ss[1..], j - 1);
    }
  }

  /**
   * Once the scan reaches pod `k`, a container of that pod that waits for a
   * reason other than ContainerCreating, or terminated with Error, fails the
   * job, whatever the pod's conditions say.
   */
  lemma FailingContainerFailsJob(job: string, pods: seq<Pod>, k: nat, j: nat)
    requires k < |pods|
    requires forall i :: 0 <= i < k ==> PodVerdict(job, pods[i]).None?
    requires j < |pods[k].containerStatuses| && StatusFailure(pods[k].containerStatuses[j]).Some?
    ensures ScanPods(job, pods).Failed? && ScanPods(job, pods).pod == pods[k].name
  {
    FailingStatusIsFound(pods[k].containerStatuses, j);
    FirstForcedVerdictDecides(job, pods, k);
  }

  /**
   * For a condition whose reason is exactly Unschedulable: a recognised
   * scale-up wait with the autoscaler's refusal fails the job, one without it
   * keeps waiting, and one whose message does not match the pattern (or
   * shows more current than target nodes) is passed over.
   */
  lemma UnschedulableVerdict(job: string, pod: string, c: Condition)
    requires c.reason == Some(Unschedulable)
    ensures var waiting := c.message.Some? && exists d1, d2 :: MatchNodesAvailable(c.message.value) == Some((d1, d2)) && d1 <= d2;
      && (ConditionVerdict(job, pod, c) == Some(Failed(job, pod, ScaleUpFailed(c))) <==>
            waiting && exists j :: Text.OccursAt(c.message.value, NoScaleUp, j))
      && (ConditionVerdict(job, pod, c) == Some(NotStarted) <==>
            waiting && !exists j :: Text.OccursAt(c.message.value, NoScaleUp, j))
      && (ConditionVerdict(job, pod, c) == None <==> !waiting)
  {
    Text.PrefixIsContained(Unschedulable, Unschedulable);
    assert Text.OccursAt(Unschedulable, Unschedulable, 0);
    if c.message == Some("") {
      assert MatchNodesAvailable("") == None;
    }
  }

  /** A ContainersNotReady condition reached by the scan makes the job not started yet. */
  lemma {:induction false} ContainersNotReadyWaits(job: string, pod: string, cs: seq<Condition>, j: nat)
    requires j < |cs| && cs[j].reason == Some(ContainersNotReady)
    requires forall i :: 0 <= i < j ==> ConditionVerdict(job, pod, cs[i]).None?
    ensures ConditionsVerdict(job, pod, cs) == Some(NotStarted)
  {
    if j > 0 {
      assert cs[1..][j - 1] == cs[j];
      ContainersNotReadyWaits(job, pod, cs[1..], j - 1);
    }
  }

  /** An empty pod list, even after the second listing, counts as started. */
  lemma NoPodsCountsAsStarted(job: string)
    ensures ScanPods(job, PodsToScan([], [])) == Started
  {
  }

  /** A pod that is not ready ahead of a pod whose container errored hides the error. */
  lemma NotReadyPodHidesLaterFailure(job: string)
    ensures var waiting := Pod("a", [], [Condition(Some(ContainersNotReady), None)]);
            var broken := Pod("b", [ContainerStatus(None, Some(StateDetail(Some("Error"))))], []);
            ScanPods(job, [waiting, broken]) == NotStarted
  {
  }

  /**
   * With ten or more nodes the scale-up message is not recognised, so even
   * the autoscaler's refusal is passed over and the pod counts as started.
   */
  lemma MultiDigitRefusalCountsAsStarted(job: string)
    ensures var msg := "10/12" + NodesAvailable + ": " + NoScaleUp + "'t fit if a new node is added)";
            ScanPods(job, [Pod("p", [], [Condition(Some(Unschedulable), Some(msg))])]) == Started
  {
    var msg := "10/12" + NodesAvailable + ": " + NoScaleUp + "'t fit if a new node is added)";
    assert msg[1] == '0';
    var c := Condition(Some(Unschedulable), Some(msg));
    var p := Pod("p", [], [c]);
    Text.PrefixIsContained(Unschedulable, Unschedulable);
    assert WaitingForScaleUp(c) == None;
    assert ConditionVerdict(job, "p", c) == None;
    assert [c][1..] == [];
    assert ConditionsVerdict(job, "p", [c]) == None;
    assert StatusesFailure([]) == None;
    assert PodVerdict(job, p) == None;
    assert [p][1..] == [];
  }

  // ---------------------------------------------------------------------------
  // is_job_completed
  // ---------------------------------------------------------------------------

  /** The two counters of a `V1JobStatus` the decision reads; `None` when the API leaves them unset. */
  datatype JobStatus = JobStatus(succeeded: Option<int>, failed: Option<int>)

  /** True, False, or `FailedJob` raised carrying the status that was read. */
  datatype Completion = Completed | NotCompleted | JobFailed(job: string, status: JobStatus)

  /**
   * `is_job_completed` after its API read: a set `succeeded` counter wins
   * even when `failed` is set too (a zero counts as set, as `is not None`
   * does); a set `failed` alone raises; neither means still running.
   */
  function IsJobCompleted(job: string, status: JobStatus): (r: Completion)
    ensures r == Completed <==> status.succeeded.Some?
    ensures r == JobFailed(job, status) <==> status.succeeded.None? && status.failed.Some?
    ensures r == NotCompleted <==> status.succeeded.None? && status.failed.None?
  {
    var hasSucceeded := status.succeeded.Some?;
    var hasFailed := status.failed.Some?;
    if hasSucceeded || hasFailed then
      if hasSucceeded then Completed else JobFailed(job, status)
    else NotCompleted
  }
}
