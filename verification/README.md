# kubeluigi, modelled in Dafny

kubeluigi runs luigi tasks as Kubernetes Jobs. A task describes its pod as a
Python dictionary. kubeluigi turns that dictionary into a pod template and a
Job, and may first attach extra volumes: an ephemeral disk or an Azure blob
storage container. It then submits the Job and polls it, with two decisions:

- whether the Job's pods have started, are still waiting, or have failed;
- whether the Job has completed or failed.

This project models those decisions, the dictionary builders and the volume
naming, and proves what they promise.

| file | module | models |
|---|---|---|
| `wrappers.dfy` | `Wrappers` | `Option`, Python's `None` |
| `text.dfy` | `Text` | `p in s`, `startswith`, ASCII `lower()`, `replace("-", "")`, `s[:n]`, `str(int)` and its inverse |
| `values.dfy` | `Values` | the contents of the pod dictionaries (strings, numbers, lists, nested dicts, `V1VolumeMount`) |
| `pod_start.dfy` | `PodStart` | `is_pod_waiting_for_scale_up`, `has_scaling_failed`, `has_job_started`, `is_job_completed` |
| `volumes.dfy` | `Volumes` | `EphemeralVolume`, `BlobStorageVolume`, `pvc_name`, `short_pvc_name`, the pod volume and mount specs |
| `specs.dfy` | `Specs` | `pod_spec_from_dict`, `get_container_with_volume_mounts`, `job_definition`, `attach_volume_to_spec` |

How the Python constructs are modelled:

- **`has_job_started`** is a method with the source's nested loops and early
  exits. It is proved equal to `ScanPods`, a recursive specification over the
  pod list. Its three results are True, False and a raised `FailedJob`; here
  they are `Started`, `NotStarted` and `Failed(job, pod, cause)`, and the cause
  says which `raise` fired.
- **The builders** change the caller's dictionaries in place, so those
  dictionaries are objects:
  - a container dict is a `Dict`;
  - the labels are a `Labels`;
  - the pod dict is a `PodSchema`.

  Each builder is a method whose `modifies` clause names exactly the objects
  the source mutates. `V1ObjectMeta` holds the labels object itself, not a
  copy, so a later `labels.update` in `job_definition` shows through every
  object built from it.
- **Python's `hash()`** is the parameter `hash: string -> int`. Its values
  differ from one interpreter process to the next, so every volume lemma holds
  for any hash function.

## Model

| member | source | states |
|---|---|---|
| `PodStart.MatchNodesAvailableIff` | kubeluigi/k8s.py:226 | the scale-up pattern matches exactly the messages beginning with `"<d1>/<d2> nodes are available"` for single ASCII digits, and captures those digits |
| `PodStart.MultiDigitCountNotMatched` | kubeluigi/k8s.py:226 | a message beginning `"10/12 nodes are available"` is not recognised, because each group takes one digit |
| `PodStart.WaitingForScaleUp` | kubeluigi/k8s.py:219-232 | True exactly when the reason contains "Unschedulable", the message is non-empty and matches with current ≤ target nodes; the falsy None exactly when such a message does not match; False otherwise |
| `PodStart.HasScalingFailed` | kubeluigi/k8s.py:235-242 | true exactly when "Unschedulable" occurs in the reason, the message is non-empty, and the autoscaler's "pod didn't trigger scale-up (it wouldn" occurs in the message |
| `PodStart.HasJobStarted` | kubeluigi/k8s.py:245-294 | the loops return what the scan specification gives for the first pod list, or for the second listing when the first was empty |
| `PodStart.StartedIff` | kubeluigi/k8s.py:261-294 | the job counts as started exactly when no pod forces a verdict |
| `PodStart.ForcedVerdictIsNotStarted` | kubeluigi/k8s.py:262-293 | every early exit of a pod is "not started" or a failure, never "started" |
| `PodStart.ConditionsNeverStarted` | kubeluigi/k8s.py:279-293 | no pod condition forces "started" |
| `PodStart.FirstForcedVerdictDecides` | kubeluigi/k8s.py:261-294 | the first pod that forces a verdict decides the result, whatever later pods hold |
| `PodStart.FailingStatusIsFound` | kubeluigi/k8s.py:263-278 | a waiting container whose reason is not ContainerCreating, or a container terminated with reason Error, makes its pod's status check fail |
| `PodStart.FailingContainerFailsJob` | kubeluigi/k8s.py:262-278 | once the scan reaches a pod with such a container, the job fails on that pod, whatever the pod's conditions say: statuses come before conditions |
| `PodStart.UnschedulableVerdict` | kubeluigi/k8s.py:284-293 | an Unschedulable condition fails the job when it is a scale-up wait and scaling failed, waits when it is a scale-up wait without that refusal, and is passed over otherwise, each as an if-and-only-if |
| `PodStart.ContainersNotReadyWaits` | kubeluigi/k8s.py:282-283 | a ContainersNotReady condition reached by the scan makes the pod "not started" |
| `PodStart.NoPodsCountsAsStarted` | kubeluigi/k8s.py:253-294 | with no pods in either listing the job counts as started |
| `PodStart.NotReadyPodHidesLaterFailure` | kubeluigi/k8s.py:261-283 | a not-ready pod listed before a pod whose container errored gives "not started"; the error is never seen |
| `PodStart.MultiDigitRefusalCountsAsStarted` | kubeluigi/k8s.py:284-294 | with ten or more nodes even the autoscaler's refusal is passed over, and the pod counts as started |
| `PodStart.IsJobCompleted` | kubeluigi/k8s.py:297-320 | completed exactly when `succeeded` is set, even when `failed` is set too; failed with the status exactly when only `failed` is set; still running exactly when neither is set |
| `Text.RemoveAllMembers` | kubeluigi/volumes.py:21 | a character survives `replace("-", "")` exactly when it occurred and is not a dash |
| `Text.Take` | kubeluigi/volumes.py:21 | `s[:n]` is the prefix of `s` of exactly `min(n, |s|)` characters |
| `Text.DecimalRoundTrip` | kubeluigi/volumes.py:14 | the decimal text of the hash reads back as the hash: the name loses nothing of it before the 60-character cut |
| `Volumes.NewEphemeralVolume` | kubeluigi/volumes.py:53-56 | an ephemeral volume keeps the size it is given and mounts at the location given, "/mnt/data" by default |
| `Volumes.AttachableVolume.SecretName` | kubeluigi/volumes.py:102-106 | the secret is "storage-sas-" followed by the storage account |
| `Volumes.ShortPvcName` | kubeluigi/volumes.py:16-21 | at most 60 characters and no dash, whatever the hash, negative hashes included |
| `Volumes.PvcNameShape` | kubeluigi/volumes.py:9-14 | lower-casing changes nothing: the name is the decimal hash followed by "-moussaka-disk" |
| `Volumes.PvcNameCharacters` | kubeluigi/volumes.py:9-14 | the name holds only lower-case letters, digits and dashes, and one of its first two characters is a digit |
| `Volumes.ShortPvcNameIsDnsLabel` | kubeluigi/volumes.py:16-21 | the short name is a valid DNS-1123 label: 1 to 63 lower-case letters or digits, not starting or ending with a dash |
| `Volumes.MachineHashNameIsUncut` | kubeluigi/volumes.py:16-21 | for any hash a 64-bit interpreter produces, the 60-character cut removes nothing |
| `Volumes.ShortPvcNameOfMachineHash` | kubeluigi/volumes.py:14-21 | for such a hash the short name is the digits of the hash's absolute value followed by "moussakadisk" |
| `Volumes.SuffixWithoutDash` | kubeluigi/volumes.py:14-21 | the suffix "-moussaka-disk" without its dashes is "moussakadisk" |
| `Volumes.OppositeHashesShareShortName` | kubeluigi/volumes.py:14-21 | two volumes whose hashes are opposite numbers get the same short name: removing the dashes also removes the sign |
| `Volumes.EphemeralNameIgnoresSize` | kubeluigi/volumes.py:58-59 | an ephemeral volume's name depends on its mount location, not its size |
| `Volumes.NameDependsOnHashKeyOnly` | kubeluigi/volumes.py:108-109 | volumes with the same hashed key (the mount location; for blob storage, account + container + mount location) get the same names |
| `Volumes.PodVolumeSpec` | kubeluigi/volumes.py:61-79 | exactly one volume, named with the short name |
| `Volumes.PodMountSpec` | kubeluigi/volumes.py:81-86 | exactly one mount with exactly the keys name and mountPath, holding the short name and the mount location |
| `Volumes.MountRefersToDeclaredVolume` | kubeluigi/volumes.py:61-86 | the mount's name is the name of the volume declared alongside it |
| `Volumes.EphemeralVolumeClaim` | kubeluigi/volumes.py:53-86 | for every mount location, the ephemeral claim requests "<size>Gi" of storage class "default" with access mode ReadWriteOnce, and the mount is at that location; the default location is /mnt/data |
| `Volumes.BlobStorageVolumeCsi` | kubeluigi/volumes.py:96-133 | the blob CSI driver, the container name, the account's secret, and a mount at /mnt/<account>/<container> |
| `Specs.ToVolumeMounts` | kubeluigi/k8s.py:86-91 | one mount per mount dict, in order, each keeping only the dict's mountPath and name |
| `Specs.ToVolumeMountsAppend` | kubeluigi/k8s.py:86-91 | converting a concatenation gives the concatenation of the conversions |
| `Specs.GetContainerWithVolumeMounts` | kubeluigi/k8s.py:81-93 | the caller's container gets the converted mounts in place of its mount dicts, keeps every other key, and is itself the result |
| `Specs.RenamePullPolicy` | kubeluigi/k8s.py:64-65 | imagePullPolicy is gone, its value is now under image_pull_policy, and every other key is unchanged |
| `Specs.NormalizeContainer` | kubeluigi/k8s.py:63-67 | the pull policy is renamed, a non-empty volume_mounts is converted, an empty or absent one is left alone, and every other key is unchanged |
| `Specs.NormalizedMountsAreNotConvertible` | kubeluigi/k8s.py:66-91 | a converted container with mounts cannot be converted again, which is why a container dict may not appear twice |
| `Specs.VolumeSpecs` | kubeluigi/k8s.py:69-71 | one volume per volume dict, in order, and none when the "volumes" key is absent |
| `Specs.VolumesFromDict` | kubeluigi/k8s.py:69-71 | the volume loop builds exactly those volumes |
| `Specs.ConvertContainer` | kubeluigi/k8s.py:64-67 | one pass of the container loop leaves the caller's container dict normalised: pull policy renamed, a non-empty volume_mounts converted |
| `Specs.PodSpecFromDict` | kubeluigi/k8s.py:55-78 | each caller's container dict is normalised in place; one container per dict, in order, built from it; the volumes; the restart policy ("Never" by default); metadata with the given name and labels object |
| `Specs.ExampleContainerNormalized` | test/kubernetes_helpers_test.py:101-117 | for a container shaped like the repository's example, the pull policy moves to image_pull_policy and the mount keeps its path and name but loses host_path |
| `Specs.JobDefinition` | kubeluigi/k8s.py:107-131 | the caller's labels gain spawned_by = "luigi" and luigi_task_id = the uuid, overriding old values and keeping the rest; the Job is "batch/v1"/"Job" with the given name, namespace, template and backoff limit, and holds that labels object |
| `Specs.TemplateSharesJobLabels` | test/kubernetes_helpers_test.py:120-123 | when one labels dict serves the pod template and then the job, the template's labels show the job's labels too |
| `Specs.AttachVolumeToSpec` | kubeluigi/k8s.py:381-393 | the first container's mounts become the old list (or []) followed by the volume's mount, and the pod's volumes the old list (or []) followed by the volume; other containers are unchanged and the same dict is returned |
| `Specs.AttachedVolumeIsMounted` | kubeluigi/k8s.py:381-393 | after an attach the container can still be converted; its converted mounts are the earlier ones converted as before, followed by one mount of the volume's short name at its mount location, which is the name the pod's new volume declares |

## Left out

- The Kubernetes API calls (`kubernetes_client`, `corev1_client`, `get_job_pods`, `is_pod_running`, the create, read and delete calls) are network I/O. Their results are inputs: the two pod listings of `has_job_started`, and the job status of `is_job_completed`.
- The five-second pause before the second pod listing, and the polling loop of `run_and_track_job`, are clocks and sleeps. That loop's decisions are `HasJobStarted` and `IsJobCompleted`.
- `track_job` in kubeluigi/__init__.py has its own rule and is not part of this model. It stops once either counter is set and never raises.
- Logging, `print_pod_logs` and `BackgroundJobLogger` are log streaming in separate processes.
- `clean_job_resources` is deletion through the API plus one status check on the API's answer. It is not part of this model.
- kubeluigi/__init__.py is an older duplicate of the builders and is not part of this model. main.py, setup.py and noxfile.py are entry points and configuration.
- Python's `hash()` is a parameter, so no statement depends on its values. Only `MachineHashNameIsUncut` and its consequences assume the 64-bit range.
- The `\d` of the scale-up pattern is an ASCII digit, and `lower()` is ASCII lower-casing. Python also accepts other Unicode digits and letters there.
- The `V1...` constructors of the kubernetes library are records of the fields passed to them. Their keyword checking (`V1Container(**container)` with an unknown key raises) is not modelled.
- Dictionary key order is not modelled: dictionaries are maps.
- `PodStart.HasJobStarted`: a pod's `status` and each container status's `state` are taken to be present. The source reads `pod.status.container_statuses`, `status.state.waiting` and `status.state.terminated` (kubeluigi/k8s.py:264-273). Both are optional in the Kubernetes API, and when either is None the source raises AttributeError. That error path is not modelled.
- `Volumes.NewEphemeralVolume`: the size is an integer. The source formats whatever it is given (`f"{size_in_gb}Gi"`, kubeluigi/volumes.py:72), so a size of 1.5 gives "1.5Gi". Non-integer sizes are not modelled.
- `PodStart.WaitingForScaleUp`, `PodStart.HasScalingFailed`: require a condition with a reason, because `"Unschedulable" in None` raises in the source. `has_job_started` only calls them on conditions whose reason is Unschedulable.
- `Specs.GetContainerWithVolumeMounts`, `Specs.PodSpecFromDict`, `Specs.AttachVolumeToSpec`: require the dictionaries to have the shapes their subscripts need: a list of mount dicts with mountPath and name; volume dicts; a non-empty containers list; a list under volume_mounts. The source raises KeyError, IndexError or TypeError otherwise, and those errors are not modelled as outcomes.
- `Specs.PodSpecFromDict`: requires the container dicts to be pairwise different objects. A dict listed twice with mounts makes the source raise on its second pass (`NormalizedMountsAreNotConvertible`). That raise is not modelled.
- `Specs.PodSpecFromDict`: takes `labels` as an ordinary parameter. The source's default `labels={}` is one dict shared by every call that omits it, and that sharing is not modelled.
- The repository's test for `job_definition` calls it with five arguments and expects no luigi_task_id label. The model follows kubeluigi/k8s.py:107-131, which takes the uuid and adds that label.
- The repository's tests also import `reduce_job_state`, `job_phase_stream` and `kick_off_job`, and describe a "mixed" job state. kubeluigi/k8s.py defines none of these, so they are not modelled. By the code, `has_job_started` returns True on an empty pod list (`NoPodsCountsAsStarted`).
