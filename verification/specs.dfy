/**
 * The builders of kubeluigi/k8s.py that turn the dictionaries a task writes
 * into Kubernetes objects, and that change those dictionaries while doing so:
 * `pod_spec_from_dict`, `get_container_with_volume_mounts`, `job_definition`
 * and `attach_volume_to_spec`.
 *
 * A dictionary the source mutates in place is an object here: a container
 * dict is a `Dict`, the labels dict a `Labels`, the pod dict (its
 * "containers" list of container dicts and its optional "volumes" list) a
 * `PodSchema`.  The `V1...` objects of the kubernetes library become
 * datatypes holding the fields passed to them; `V1ObjectMeta` keeps a
 * reference to the labels object it is given, as the Python object does.
 */
module Specs {

  import opened Wrappers
  import opened Values
  import Volumes

  /** A container dict of the pod dict, changed in place by the builders. */
  class Dict {
    var entries: map<string, Value>

    constructor (entries: map<string, Value>)
      ensures this.entries == entries
    {
      this.entries := entries;
    }
  }

  /** A labels dict (`Dict[str, str]`), shared by reference between the objects built from it. */
  class Labels {
    var items: map<string, string>

    constructor (items: map<string, string>)
      ensures this.items == items
    {
      this.items := items;
    }
  }

  /** The pod dict: its "containers" list, and its "volumes" list when the key is present. */
  class PodSchema {
    var containers: seq<Dict>
    var volumes: Option<seq<Value>>

    constructor (containers: seq<Dict>, volumes: Option<seq<Value>>)
      ensures this.containers == containers && this.volumes == volumes
    {
      this.containers := containers;
      this.volumes := volumes;
    }
  }

  /** `V1Container(**container)`. */
  datatype ContainerSpec = ContainerSpec(fields: map<string, Value>)

  /** `V1Volume(**volume)`. */
  datatype VolumeSpec = VolumeSpec(fields: map<string, Value>)

  /** `V1ObjectMeta`: holds the labels object itself, not a copy. */
  datatype ObjectMeta = ObjectMeta(name: string, labels: Labels, namespace: Option<string>)

  datatype PodSpec = PodSpec(restartPolicy: string, containers: seq<ContainerSpec>, volumes: seq<VolumeSpec>)

  datatype PodTemplateSpec = PodTemplateSpec(metadata: ObjectMeta, spec: PodSpec)

  datatype JobSpec = JobSpec(template: PodTemplateSpec, backoffLimit: int)

  datatype Job = Job(apiVersion: string, kind: string, metadata: ObjectMeta, spec: JobSpec)

  // ---------------------------------------------------------------------------
  // Volume mounts
  // ---------------------------------------------------------------------------

  /** A mount dict that `volume["mountPath"]` and `volume["name"]` can read. */
  predicate IsMountEntry(v: Value) {
    v.Record? && "mountPath" in v.fields && "name" in v.fields
  }

  predicate IsMountList(v: Value) {
    v.List? && forall i :: 0 <= i < |v.items| ==> IsMountEntry(v.items[i])
  }

  /** The `V1VolumeMount(mount_path=..., name=...)` made from one mount dict. */
  function ToVolumeMount(v: Value): Value
    requires IsMountEntry(v)
  {
    VolumeMountObj(v.fields["mountPath"], v.fields["name"])
  }

  /**
   * The mounts made from a list of mount dicts: one per dict, in order, each
   * keeping the dict's "mountPath" and "name" and nothing else.
   */
  function ToVolumeMounts(specs: seq<Value>): (r: seq<Value>)
    requires forall i :: 0 <= i < |specs| ==> IsMountEntry(specs[i])
    ensures |r| == |specs|
    ensures forall i :: 0 <= i < |specs| ==> r[i] == ToVolumeMount(specs[i])
  {
    if specs == [] then [] else ToVolumeMounts(specs[..|specs| - 1]) + [ToVolumeMount(specs[|specs| - 1])]
  }

  /** The mounts made from `a + b` are those made from `a` followed by those made from `b`. */
  lemma {:induction false} ToVolumeMountsAppend(a: seq<Value>, b: seq<Value>)
    requires forall i :: 0 <= i < |a| ==> IsMountEntry(a[i])
    requires forall i :: 0 <= i < |b| ==> IsMountEntry(b[i])
    ensures ToVolumeMounts(a + b) == ToVolumeMounts(a) + ToVolumeMounts(b)
    decreases |b|
  {
    if b != [] {
      var last := |b| - 1;
      assert (a + b)[..|a + b| - 1] == a + b[..last];
      ToVolumeMountsAppend(a, b[..last]);
    } else {
      assert a + b == a;
    }
  }

  /**
   * `get_container_with_volume_mounts`: replaces the container's
   * "volume_mounts" list of dicts by the list of `V1VolumeMount`s made from
   * them, in the caller's dict, and returns that same dict.
   */
  method GetContainerWithVolumeMounts(container: Dict) returns (r: Dict)
    requires "volume_mounts" in container.entries && IsMountList(container.entries["volume_mounts"])
    modifies container
    ensures r == container
    ensures container.entries
         == old(container.entries)["volume_mounts" := List(ToVolumeMounts(old(container.entries["volume_mounts"].items)))]
  {
    var specs := container.entries["volume_mounts"].items;
    var mounts: seq<Value> := [];
    for i := 0 to |specs|
      invariant mounts == ToVolumeMounts(specs[..i])
    {
      var volume := specs[i];
      var mountPath := volume.fields["mountPath"];
      var name := volume.fields["name"];
      assert specs[..i + 1][..i] == specs[..i];
      mounts := mounts + [VolumeMountObj(mountPath, name)];
    }
    assert specs[..|specs|] == specs;
    container.entries := container.entries["volume_mounts" := List(mounts)];
    r := container;
  }

  // ---------------------------------------------------------------------------
  // Containers
  // ---------------------------------------------------------------------------

  /** `container["image_pull_policy"] = container.pop("imagePullPolicy")` when the camel-case key is present. */
  function RenamePullPolicy(entries: map<string, Value>): (r: map<string, Value>)
    ensures "imagePullPolicy" !in r
    ensures "imagePullPolicy" in entries ==> "image_pull_policy" in r && r["image_pull_policy"] == entries["imagePullPolicy"]
    ensures forall k :: k != "imagePullPolicy" && k != "image_pull_policy" ==>
      (k in r <==> k in entries) && (k in r ==> r[k] == entries[k])
    ensures "imagePullPolicy" !in entries ==> r == entries
  {
    if "imagePullPolicy" in entries then
      (entries - {"imagePullPolicy"})["image_pull_policy" := entries["imagePullPolicy"]]
    else entries
  }

  /** The container has a non-empty "volume_mounts" value, which `pod_spec_from_dict` converts. */
  predicate HasMounts(entries: map<string, Value>) {
    "volume_mounts" in entries && Truthy(entries["volume_mounts"])
  }

  /** A container `pod_spec_from_dict` can convert: its non-empty "volume_mounts", if any, is a list of mount dicts. */
  predicate Convertible(entries: map<string, Value>) {
    HasMounts(entries) ==> IsMountList(entries["volume_mounts"])
  }

  /** The container dict as `pod_spec_from_dict` leaves it. */
  function NormalizeContainer(entries: map<string, Value>): (r: map<string, Value>)
    requires Convertible(entries)
    ensures "imagePullPolicy" !in r
    ensures "imagePullPolicy" in entries ==> "image_pull_policy" in r && r["image_pull_policy"] == entries["imagePullPolicy"]
    ensures forall k :: k != "imagePullPolicy" && k != "image_pull_policy" && k != "volume_mounts" ==>
      (k in r <==> k in entries) && (k in r ==> r[k] == entries[k])
    ensures HasMounts(entries) ==>
      "volume_mounts" in r && r["volume_mounts"] == List(ToVolumeMounts(entries["volume_mounts"].items))
    ensures !HasMounts(entries) ==>
      ("volume_mounts" in r <==> "volume_mounts" in entries) && ("volume_mounts" in r ==> r["volume_mounts"] == entries["volume_mounts"])
  {
    var e := RenamePullPolicy(entries);
    if HasMounts(e) then e["volume_mounts" := List(ToVolumeMounts(e["volume_mounts"].items))] else e
  }

  /**
   * A container that had mounts cannot be converted a second time: its
   * mounts are now `V1VolumeMount`s, which `volume["mountPath"]` cannot read.
   * This is why the same container dict may not appear twice in the list.
   */
  lemma NormalizedMountsAreNotConvertible(entries: map<string, Value>)
    requires Convertible(entries) && HasMounts(entries)
    ensures !Convertible(NormalizeContainer(entries))
  {
    var mounts := NormalizeContainer(entries)["volume_mounts"];
    assert mounts.items[0].VolumeMountObj?;
  }

  /** The containers are pairwise different dicts. */
  predicate Distinct(containers: seq<Dict>) {
    forall i, j :: 0 <= i < j < |containers| ==> containers[i] != containers[j]
  }

  /** The `V1Volume`s made from the pod dict's "volumes" list, or none when the key is absent. */
  function VolumeSpecs(volumes: Option<seq<Value>>): (r: seq<VolumeSpec>)
    requires volumes.Some? ==> forall i :: 0 <= i < |volumes.value| ==> volumes.value[i].Record?
    ensures volumes.None? ==> r == []
    ensures volumes.Some? ==>
      |r| == |volumes.value| && forall i :: 0 <= i < |r| ==> r[i] == VolumeSpec(volumes.value[i].fields)
  {
    match volumes
    case None => []
    case Some(vs) => seq(|vs|, i requires 0 <= i < |vs| => VolumeSpec(vs[i].fields))
  }

  /**
   * `pod_spec_from_dict`: one `V1Container` per container dict, in order,
   * each built from the dict after `imagePullPolicy` is renamed and a
   * non-empty "volume_mounts" is converted (both changes stay in the
   * caller's dicts); one `V1Volume` per volume dict, none without a
   * "volumes" key; the given name and labels object, restart policy
   * "Never" unless told otherwise.
   */
  method PodSpecFromDict(name: string, schema: PodSchema, labels: Labels, restartPolicy: string := "Never")
    returns (t: PodTemplateSpec)
    requires Distinct(schema.containers)
    requires forall i :: 0 <= i < |schema.containers| ==> Convertible(schema.containers[i].entries)
    requires schema.volumes.Some? ==> forall i :: 0 <= i < |schema.volumes.value| ==> schema.volumes.value[i].Record?
    modifies schema.containers
    ensures forall i :: 0 <= i < |schema.containers| ==>
      schema.containers[i].entries == NormalizeContainer(old(schema.containers[i].entries))
    ensures |t.spec.containers| == |schema.containers|
    ensures forall i :: 0 <= i < |schema.containers| ==> t.spec.containers[i] == ContainerSpec(schema.containers[i].entries)
    ensures t.spec.volumes == VolumeSpecs(schema.volumes)
    ensures t.spec.restartPolicy == restartPolicy
    ensures t.metadata == ObjectMeta(name, labels, None)
  {
    var cs := schema.containers;
    var containers: seq<ContainerSpec> := [];
    for i := 0 to |cs|
      invariant |containers| == i
      invariant forall j :: 0 <= j < i ==> cs[j].entries == NormalizeContainer(old(cs[j].entries))
      invariant forall j :: 0 <= j < i ==> containers[j] == ContainerSpec(cs[j].entries)
      invariant forall j :: i <= j < |cs| ==> cs[j].entries == old(cs[j].entries)
    {
      ConvertContainer(cs[i]);
      containers := containers + [ContainerSpec(cs[i].entries)];
    }
    var volumes := VolumesFromDict(schema.volumes);
    t := PodTemplateSpec(ObjectMeta(name, labels, None), PodSpec(restartPolicy, containers, volumes));
  }

  /**
   * One pass of the container loop of `pod_spec_from_dict`: the caller's
   * container dict loses `imagePullPolicy` to `image_pull_policy`, and its
   * non-empty "volume_mounts" is converted.
   */
  method ConvertContainer(container: Dict)
    requires Convertible(container.entries)
    modifies container
    ensures container.entries == NormalizeContainer(old(container.entries))
  {
    if "imagePullPolicy" in container.entries {
      var policy := container.entries["imagePullPolicy"];
      container.entries := container.entries - {"imagePullPolicy"};
      container.entries := container.entries["image_pull_policy" := policy];
    }
    if "volume_mounts" in container.entries && Truthy(container.entries["volume_mounts"]) {
      var _ := GetContainerWithVolumeMounts(container);
    }
  }

  /** The volume loop of `pod_spec_from_dict`: one `V1Volume` per volume dict, none without a "volumes" key. */
  method VolumesFromDict(volumes: Option<seq<Value>>) returns (r: seq<VolumeSpec>)
    requires volumes.Some? ==> forall i :: 0 <= i < |volumes.value| ==> volumes.value[i].Record?
    ensures r == VolumeSpecs(volumes)
  {
    r := [];
    if volumes.Some? {
      var vs := volumes.value;
      for i := 0 to |vs|
        invariant r == VolumeSpecs(Some(vs[..i]))
      {
        r := r + [VolumeSpec(vs[i].fields)];
      }
      assert vs[..|vs|] == vs;
    }
  }

  // ---------------------------------------------------------------------------
  // Jobs
  // ---------------------------------------------------------------------------

  /**
   * `job_definition`: adds spawned_by = "luigi" and luigi_task_id = the job's
   * uuid to the caller's labels object (overriding earlier values, keeping
   * every other label), and returns a "batch/v1" Job with the given name,
   * namespace, pod template and backoff limit, whose metadata holds that
   * same labels object.
   */
  method JobDefinition(jobName: string, jobUuid: string, backoffLimit: int, podTemplateSpec: PodTemplateSpec,
                       labels: Labels, namespace: string)
    returns (job: Job)
    modifies labels
    ensures labels.items.Keys == old(labels.items).Keys + {"spawned_by", "luigi_task_id"}
    ensures labels.items["spawned_by"] == "luigi" && labels.items["luigi_task_id"] == jobUuid
    ensures forall k :: k in old(labels.items) && k != "spawned_by" && k != "luigi_task_id" ==>
      labels.items[k] == old(labels.items)[k]
    ensures job.apiVersion == "batch/v1" && job.kind == "Job"
    ensures job.metadata == ObjectMeta(jobName, labels, Some(namespace))
    ensures job.spec == JobSpec(podTemplateSpec, backoffLimit)
  {
    var spec := JobSpec(podTemplateSpec, backoffLimit);
    labels.items := labels.items + map["spawned_by" := "luigi", "luigi_task_id" := jobUuid];
    job := Job("batch/v1", "Job", ObjectMeta(jobName, labels, Some(namespace)), spec);
  }

  /**
   * Building a pod template and then a job with the same labels dict: the
   * job's labels reach the pod template too, since both hold the one object.
   */
  method TemplateSharesJobLabels(schema: PodSchema, labels: Labels, uuid: string)
    returns (template: PodTemplateSpec, job: Job)
    requires Distinct(schema.containers)
    requires forall i :: 0 <= i < |schema.containers| ==> Convertible(schema.containers[i].entries)
    requires schema.volumes.Some? ==> forall i :: 0 <= i < |schema.volumes.value| ==> schema.volumes.value[i].Record?
    modifies schema.containers, labels
    ensures template.metadata.labels == job.metadata.labels == labels
    ensures "spawned_by" in template.metadata.labels.items && template.metadata.labels.items["spawned_by"] == "luigi"
    ensures "luigi_task_id" in template.metadata.labels.items && template.metadata.labels.items["luigi_task_id"] == uuid
    ensures job.spec.template == template
  {
    template := PodSpecFromDict("pod_name", schema, labels);
    job := JobDefinition("my_job", uuid, 100, template, labels, "my_namespace");
  }

  // ---------------------------------------------------------------------------
  // Attaching a volume
  // ---------------------------------------------------------------------------

  /** `container.get("volume_mounts", [])` for a container whose mounts, if any, are a list. */
  function CurrentMounts(entries: map<string, Value>): seq<Value>
    requires "volume_mounts" in entries ==> entries["volume_mounts"].List?
  {
    if "volume_mounts" in entries then entries["volume_mounts"].items else []
  }

  /**
   * `attach_volume_to_spec`: appends the volume's mount to the first
   * container's "volume_mounts" and its volume to the pod's "volumes"
   * (each an empty list when absent), in the caller's dict, and returns
   * that same dict; the other containers are left alone.
   */
  method AttachVolumeToSpec(podSpec: PodSchema, volume: Volumes.AttachableVolume, hash: string -> int)
    returns (r: PodSchema)
    requires |podSpec.containers| > 0
    requires "volume_mounts" in podSpec.containers[0].entries ==> podSpec.containers[0].entries["volume_mounts"].List?
    modifies podSpec, podSpec.containers[0]
    ensures r == podSpec && podSpec.containers == old(podSpec.containers)
    ensures podSpec.containers[0].entries == old(podSpec.containers[0].entries)["volume_mounts" :=
      List(CurrentMounts(old(podSpec.containers[0].entries)) + Volumes.PodMountSpec(hash, volume)["volume_mounts"].items)]
    ensures podSpec.volumes == Some(old(podSpec.volumes).GetOr([]) + Volumes.PodVolumeSpec(hash, volume)["volumes"].items)
    ensures forall i :: 0 <= i < |podSpec.containers| && podSpec.containers[i] != podSpec.containers[0] ==>
      podSpec.containers[i].entries == old(podSpec.containers[i].entries)
  {
    var volumeSpec := Volumes.PodVolumeSpec(hash, volume);
    var mountSpec := Volumes.PodMountSpec(hash, volume);
    var first := podSpec.containers[0];
    var mounted := CurrentMounts(first.entries);
    first.entries := first.entries["volume_mounts" := List(mounted + mountSpec["volume_mounts"].items)];
    var current := podSpec.volumes.GetOr([]);
    podSpec.volumes := Some(current + volumeSpec["volumes"].items);
    r := podSpec;
  }

  /**
   * A container that received a volume's mount can still be converted by
   * `pod_spec_from_dict`: its earlier mounts convert as before, and one last
   * `V1VolumeMount` follows them, mounting at the volume's mount location the
   * volume of the name the pod declares.
   */
  lemma AttachedVolumeIsMounted(entries: map<string, Value>, hash: string -> int, volume: Volumes.AttachableVolume)
    requires "volume_mounts" in entries ==> entries["volume_mounts"].List?
    requires Convertible(entries)
    ensures forall i :: 0 <= i < |CurrentMounts(entries)| ==> IsMountEntry(CurrentMounts(entries)[i])
    ensures var name := Volumes.ShortPvcName(hash, volume);
      var attached := entries["volume_mounts" :=
        List(CurrentMounts(entries) + Volumes.PodMountSpec(hash, volume)["volume_mounts"].items)];
      && Convertible(attached)
      && NormalizeContainer(attached)["volume_mounts"].items
         == ToVolumeMounts(CurrentMounts(entries)) + [VolumeMountObj(Str(volume.MountLocation()), Str(name))]
      && Lookup(Volumes.PodVolumeSpec(hash, volume)["volumes"].items[0], ["name"]) == Some(Str(name))
  {
    var added := Volumes.PodMountSpec(hash, volume)["volume_mounts"].items;
    AddedMount(hash, volume);
    AppendedMountsConvert(entries, added);
  }

  /** Mount dicts appended to a container's mounts convert after the ones already there. */
  lemma AppendedMountsConvert(entries: map<string, Value>, added: seq<Value>)
    requires "volume_mounts" in entries ==> entries["volume_mounts"].List?
    requires Convertible(entries)
    requires |added| > 0 && forall i :: 0 <= i < |added| ==> IsMountEntry(added[i])
    ensures forall i :: 0 <= i < |CurrentMounts(entries)| ==> IsMountEntry(CurrentMounts(entries)[i])
    ensures var attached := entries["volume_mounts" := List(CurrentMounts(entries) + added)];
      && Convertible(attached)
      && NormalizeContainer(attached)["volume_mounts"].items == ToVolumeMounts(CurrentMounts(entries)) + ToVolumeMounts(added)
  {
    var current := CurrentMounts(entries);
    CurrentMountsAreEntries(entries);
    ConcatenatedMountEntries(current, added);
    var attached := entries["volume_mounts" := List(current + added)];
    assert HasMounts(attached) && IsMountList(attached["volume_mounts"]);
    ToVolumeMountsAppend(current, added);
  }

  /** Two lists of mount dicts joined are a list of mount dicts. */
  lemma ConcatenatedMountEntries(a: seq<Value>, b: seq<Value>)
    requires forall i :: 0 <= i < |a| ==> IsMountEntry(a[i])
    requires forall i :: 0 <= i < |b| ==> IsMountEntry(b[i])
    ensures forall i :: 0 <= i < |a + b| ==> IsMountEntry((a + b)[i])
  {
    forall i | 0 <= i < |a + b| ensures IsMountEntry((a + b)[i]) {
      if i >= |a| {
        assert (a + b)[i] == b[i - |a|];
      }
    }
  }

  /** The mounts already on a convertible container are mount dicts. */
  lemma CurrentMountsAreEntries(entries: map<string, Value>)
    requires "volume_mounts" in entries ==> entries["volume_mounts"].List?
    requires Convertible(entries)
    ensures forall i :: 0 <= i < |CurrentMounts(entries)| ==> IsMountEntry(CurrentMounts(entries)[i])
  {
    if "volume_mounts" in entries && !HasMounts(entries) {
      assert CurrentMounts(entries) == [];
    }
  }

  /** The mount a volume adds is one mount dict, which converts to the mount of its short name at its location. */
  lemma AddedMount(hash: string -> int, volume: Volumes.AttachableVolume)
    ensures var added := Volumes.PodMountSpec(hash, volume)["volume_mounts"].items;
      && |added| == 1 && IsMountEntry(added[0])
      && ToVolumeMounts(added) == [VolumeMountObj(Str(volume.MountLocation()), Str(Volumes.ShortPvcName(hash, volume)))]
  {
    var added := Volumes.PodMountSpec(hash, volume)["volume_mounts"].items;
    assert IsMountEntry(added[0]);
    assert ToVolumeMounts(added)[0] == ToVolumeMount(added[0]);
  }

  /**
   * A container dict shaped like the repository's own examples: the pull
   * policy moves to `image_pull_policy`, and its one mount keeps only its
   * path and name, losing its `host_path`.
   */
  lemma ExampleContainerNormalized(policy: Value, mountPath: Value, name: Value, hostPath: Value)
    ensures var mount := Record(map["name" := name, "mountPath" := mountPath, "host_path" := hostPath]);
      var container := map["imagePullPolicy" := policy, "volume_mounts" := List([mount])];
      && Convertible(container)
      && NormalizeContainer(container) == map["image_pull_policy" := policy, "volume_mounts" := List([VolumeMountObj(mountPath, name)])]
  {
    var mount := Record(map["name" := name, "mountPath" := mountPath, "host_path" := hostPath]);
    var container := map["imagePullPolicy" := policy, "volume_mounts" := List([mount])];
    assert HasMounts(container) && IsMountEntry(mount);
    var ms := ToVolumeMounts([mount]);
    assert ms == [VolumeMountObj(mountPath, name)];
    var renamed := RenamePullPolicy(container);
    assert renamed == map["image_pull_policy" := policy, "volume_mounts" := List([mount])];
  }
}
