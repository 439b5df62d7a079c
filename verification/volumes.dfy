/**
 * The volumes a task can attach to its pod (kubeluigi/volumes.py): an
 * ephemeral disk claimed per pod, or an Azure blob-storage container mounted
 * through the blob CSI driver.  Each volume is named after a hash of its
 * identity.  The source uses Python's built-in `hash()`, whose values change
 * from one interpreter process to the next; here the hash function is a
 * parameter `hash`, so every statement holds for whatever function one
 * process uses.
 */
module Volumes {

  import opened Wrappers
  import Text
  import opened Values

  /** The two `AttachableVolume` subclasses with the fields their `__init__` sets (never changed afterwards). */
  datatype AttachableVolume =
    | Ephemeral(sizeInGb: int, location: string)
    | BlobStorage(storageAccount: string, storageContainer: string)
  {
    /** `mount_location`: given for an ephemeral volume, `/mnt/<account>/<container>` for blob storage. */
    function MountLocation(): string {
      match this
      case Ephemeral(_, location) => location
      case BlobStorage(account, container) => "/mnt/" + account + "/" + container
    }

    /** `secret_name()` of a blob-storage volume: the Kubernetes secret holding the account's access token. */
    function SecretName(): (r: string)
      requires BlobStorage?
      ensures Text.IsPrefix("storage-sas-", r) && r[|"storage-sas-"|..] == storageAccount
    {
      "storage-sas-" + storageAccount
    }

    /** The string `volume_hash()` passes to `hash()`. */
    function HashKey(): string {
      match this
      case Ephemeral(_, location) => location
      case BlobStorage(account, container) => account + container + MountLocation()
    }
  }

  const DefaultMountLocation := "/mnt/data"

  /** `EphemeralVolume(size_in_gb, mount_location="/mnt/data")`. */
  function NewEphemeralVolume(sizeInGb: int, mountLocation: string := DefaultMountLocation): (v: AttachableVolume)
    ensures v.Ephemeral? && v.sizeInGb == sizeInGb && v.MountLocation() == mountLocation
  {
    Ephemeral(sizeInGb, mountLocation)
  }

  /** `volume_hash()`. */
  function VolumeHash(hash: string -> int, v: AttachableVolume): int {
    hash(v.HashKey())
  }

  const PvcSuffix := "-moussaka-disk"

  /** `pvc_name`: the lower-cased text of the hash followed by "-moussaka-disk". */
  function PvcName(hash: string -> int, v: AttachableVolume): string {
    Text.Lower(Text.Decimal(VolumeHash(hash, v)) + PvcSuffix)
  }

  const ShortNameLength := 60

  /** `short_pvc_name`: the first 60 characters of `pvc_name`, with every dash removed. */
  function ShortPvcName(hash: string -> int, v: AttachableVolume): (r: string)
    ensures |r| <= ShortNameLength && '-' !in r
  {
    Text.RemoveAll(Text.Take(PvcName(hash, v), ShortNameLength), '-')
  }

  // ---------------------------------------------------------------------------
  // Names
  // ---------------------------------------------------------------------------

  predicate IsLowerAlnum(c: char) {
    Text.IsDigit(c) || 'a' <= c <= 'z'
  }

  /** A Kubernetes volume name must be a DNS-1123 label. */
  predicate IsDnsLabel(s: string) {
    && 1 <= |s| <= 63
    && (forall i :: 0 <= i < |s| ==> IsLowerAlnum(s[i]) || s[i] == '-')
    && s[0] != '-' && s[|s| - 1] != '-'
  }

  /** Lower-casing does nothing to the name: it is the decimal hash followed by "-moussaka-disk". */
  lemma PvcNameShape(hash: string -> int, v: AttachableVolume)
    ensures PvcName(hash, v) == Text.Decimal(VolumeHash(hash, v)) + PvcSuffix
  {
    var s := Text.Decimal(VolumeHash(hash, v)) + PvcSuffix;
    DecimalCharacters(VolumeHash(hash, v));
    assert forall i :: 0 <= i < |s| ==> !Text.IsUpper(s[i]) by {
      forall i | 0 <= i < |s| ensures !Text.IsUpper(s[i]) {
        if i >= |Text.Decimal(VolumeHash(hash, v))| {
          assert s[i] in PvcSuffix;
        }
      }
    }
    Text.LowerWithoutUpper(s);
  }

  /** The text of an integer holds digits, and a dash only in front. */
  lemma DecimalCharacters(h: int)
    ensures var d := Text.Decimal(h);
      && |d| >= 1
      && (forall i :: 0 <= i < |d| ==> Text.IsDigit(d[i]) || (i == 0 && d[i] == '-'))
      && (Text.IsDigit(d[0]) || (|d| >= 2 && Text.IsDigit(d[1])))
  {
  }

  /** Every character of `pvc_name` is a lower-case letter, a digit or a dash, and one of its first two is a digit. */
  lemma PvcNameCharacters(hash: string -> int, v: AttachableVolume)
    ensures var p := PvcName(hash, v);
      && |p| >= 2
      && (forall i :: 0 <= i < |p| ==> IsLowerAlnum(p[i]) || p[i] == '-')
      && (Text.IsDigit(p[0]) || Text.IsDigit(p[1]))
  {
    PvcNameShape(hash, v);
    DecimalCharacters(VolumeHash(hash, v));
    var d := Text.Decimal(VolumeHash(hash, v));
    var p := d + PvcSuffix;
    forall i | 0 <= i < |p| ensures IsLowerAlnum(p[i]) || p[i] == '-' {
      if i >= |d| {
        assert p[i] in PvcSuffix;
      }
    }
  }

  /** Whatever the hash, `short_pvc_name` is a valid Kubernetes volume name of at most 60 characters. */
  lemma ShortPvcNameIsDnsLabel(hash: string -> int, v: AttachableVolume)
    ensures IsDnsLabel(ShortPvcName(hash, v))
  {
    var p := PvcName(hash, v);
    PvcNameCharacters(hash, v);
    var t := Text.Take(p, ShortNameLength);
    assert t[..2] == p[..2];
    var digit := if Text.IsDigit(p[0]) then p[0] else p[1];
    assert digit in t;
    var r := ShortPvcName(hash, v);
    Text.RemoveAllMembers(t, '-', digit);
    assert digit in r;
    forall i | 0 <= i < |r| ensures IsLowerAlnum(r[i]) {
      Text.RemoveAllMembers(t, '-', r[i]);
      assert r[i] in t;
      var j :| 0 <= j < |t| && t[j] == r[i];
      assert t[j] == p[j];
    }
  }

  /** The range of Python's `hash()` on a 64-bit interpreter. */
  predicate IsMachineHash(h: int) {
    -0x8000_0000_0000_0000 <= h <= 0x7FFF_FFFF_FFFF_FFFF
  }

  /**
   * For any hash a 64-bit interpreter produces, the 60-character cut never
   * applies: the short name is the digits of the hash's absolute value
   * followed by "moussakadisk".
   */
  lemma ShortPvcNameOfMachineHash(hash: string -> int, v: AttachableVolume)
    requires IsMachineHash(VolumeHash(hash, v))
    ensures var h := VolumeHash(hash, v);
      ShortPvcName(hash, v) == Text.Digits(if h < 0 then -h else h) + "moussakadisk"
  {
    SuffixWithoutDash();
    ShortPvcNameWithTail(hash, v, "moussakadisk");
  }

  /** The short name of a machine hash, for whatever `tail` the suffix becomes without its dashes. */
  lemma ShortPvcNameWithTail(hash: string -> int, v: AttachableVolume, tail: string)
    requires IsMachineHash(VolumeHash(hash, v))
    requires Text.RemoveAll(PvcSuffix, '-') == tail
    ensures var h := VolumeHash(hash, v);
      ShortPvcName(hash, v) == Text.Digits(if h < 0 then -h else h) + tail
  {
    MachineHashNameIsUncut(hash, v);
    NumberedNameWithoutDash(VolumeHash(hash, v), PvcSuffix);
  }

  /** Removing the dashes from a number's text followed by `suffix` keeps the digits of its absolute value. */
  lemma NumberedNameWithoutDash(h: int, suffix: string)
    ensures Text.RemoveAll(Text.Decimal(h) + suffix, '-')
         == Text.Digits(if h < 0 then -h else h) + Text.RemoveAll(suffix, '-')
  {
    Text.RemoveAllAppend(Text.Decimal(h), suffix, '-');
    DecimalWithoutDash(h);
  }

  /** At most 20 characters of sign and digits plus the suffix stay under the 60-character cut. */
  lemma MachineHashNameIsUncut(hash: string -> int, v: AttachableVolume)
    requires IsMachineHash(VolumeHash(hash, v))
    ensures ShortPvcName(hash, v) == Text.RemoveAll(Text.Decimal(VolumeHash(hash, v)) + PvcSuffix, '-')
  {
    var h := VolumeHash(hash, v);
    var n: nat := if h < 0 then -h else h;
    assert |Text.Decimal(h)| <= 20 by {
      Text.Pow10Of19();
      Text.DigitsLength(n, 19);
    }
    PvcNameShape(hash, v);
  }

  /** Removing the dashes from the text of an integer leaves the digits of its absolute value. */
  lemma DecimalWithoutDash(h: int)
    ensures Text.RemoveAll(Text.Decimal(h), '-') == Text.Digits(if h < 0 then -h else h)
  {
    var n: nat := if h < 0 then -h else h;
    Text.RemoveAllAbsent(Text.Digits(n), '-');
    if h < 0 {
      Text.RemoveAllAppend("-", Text.Digits(n), '-');
    }
  }

  /** The suffix without its dashes. */
  lemma SuffixWithoutDash()
    ensures Text.RemoveAll(PvcSuffix, '-') == "moussakadisk"
  {
    assert PvcSuffix == "-" + "moussaka" + "-" + "disk";
    DashedWordsWithoutDash("moussaka", "disk");
    JoinedWords();
  }

  lemma JoinedWords()
    ensures "moussaka" + "disk" == "moussakadisk"
  {
  }

  /** Removing the dashes from `-a-b` leaves `a + b` when neither word holds a dash. */
  lemma DashedWordsWithoutDash(a: string, b: string)
    requires '-' !in a && '-' !in b
    ensures Text.RemoveAll("-" + a + "-" + b, '-') == a + b
  {
    var x := "-" + a;
    var y := "-" + b;
    assert "-" + a + "-" + b == x + y;
    Text.RemoveAllAppend(x, y, '-');
    DashThenWord(a);
    DashThenWord(b);
  }

  lemma DashThenWord(a: string)
    requires '-' !in a
    ensures Text.RemoveAll("-" + a, '-') == a
  {
    var x := "-" + a;
    assert x[0] == '-' && x[1..] == a;
    Text.RemoveAllAbsent(a, '-');
  }

  /**
   * Dropping the dash also drops the sign: two volumes whose hashes are
   * opposite numbers get the same short name although their `pvc_name`s differ.
   */
  lemma OppositeHashesShareShortName(hash: string -> int, v: AttachableVolume, w: AttachableVolume)
    requires IsMachineHash(VolumeHash(hash, v)) && IsMachineHash(VolumeHash(hash, w))
    requires VolumeHash(hash, w) == -VolumeHash(hash, v)
    ensures ShortPvcName(hash, v) == ShortPvcName(hash, w)
  {
    var hv, hw := VolumeHash(hash, v), VolumeHash(hash, w);
    var n: nat := if hv < 0 then -hv else hv;
    assert n == if hw < 0 then -hw else hw;
    assert ShortPvcName(hash, v) == Text.Digits(n) + "moussakadisk" by {
      ShortPvcNameOfMachineHash(hash, v);
    }
    assert ShortPvcName(hash, w) == Text.Digits(n) + "moussakadisk" by {
      ShortPvcNameOfMachineHash(hash, w);
    }
  }

  /** An ephemeral volume's name depends on its mount location only, not on its size. */
  lemma EphemeralNameIgnoresSize(hash: string -> int, size1: int, size2: int, location: string)
    ensures ShortPvcName(hash, Ephemeral(size1, location)) == ShortPvcName(hash, Ephemeral(size2, location))
  {
  }

  /** Two volumes whose hash keys (account + container + mount location for blob storage) agree get the same name. */
  lemma NameDependsOnHashKeyOnly(hash: string -> int, v: AttachableVolume, w: AttachableVolume)
    requires v.HashKey() == w.HashKey()
    ensures PvcName(hash, v) == PvcName(hash, w) && ShortPvcName(hash, v) == ShortPvcName(hash, w)
  {
  }

  // ---------------------------------------------------------------------------
  // The pod spec fragments
  // ---------------------------------------------------------------------------

  const MountOptions := "-o allow_other --file-cache-timeout-in-seconds=120"

  /** The claim template of an ephemeral volume: one node read-write, class "default", `<size>Gi` requested. */
  function ClaimSpec(size: int): Value {
    Record(map[
      "accessModes" := List([Str("ReadWriteOnce")]),
      "storageClassName" := Str("default"),
      "resources" := Record(map["requests" := Record(map["storage" := Str(Text.Decimal(size) + "Gi")])])])
  }

  /** The CSI source of a blob-storage volume. */
  function CsiSource(v: AttachableVolume): Value
    requires v.BlobStorage?
  {
    Record(map[
      "driver" := Str("blob.csi.azure.com"),
      "volumeAttributes" := Record(map[
        "containerName" := Str(v.storageContainer),
        "secretName" := Str(v.SecretName()),
        "mountOptions" := Str(MountOptions)])])
  }

  /** The one entry of the "volumes" list `pod_volume_spec()` returns. */
  function VolumeEntry(hash: string -> int, v: AttachableVolume): Value {
    var name := Str(ShortPvcName(hash, v));
    match v
    case Ephemeral(size, _) =>
      Record(map[
        "name" := name,
        "ephemeral" := Record(map["volumeClaimTemplate" := Record(map["spec" := ClaimSpec(size)])])])
    case BlobStorage(_, _) =>
      Record(map["name" := name, "csi" := CsiSource(v)])
  }

  /** `pod_volume_spec()`: a dict whose "volumes" list holds exactly one volume, named `short_pvc_name`. */
  function PodVolumeSpec(hash: string -> int, v: AttachableVolume): (r: map<string, Value>)
    ensures r.Keys == {"volumes"} && r["volumes"].List? && |r["volumes"].items| == 1
    ensures Lookup(r["volumes"].items[0], ["name"]) == Some(Str(ShortPvcName(hash, v)))
  {
    map["volumes" := List([VolumeEntry(hash, v)])]
  }

  /** `pod_mount_spec()`: a dict whose "volume_mounts" list holds exactly one mount of `short_pvc_name` at the mount location. */
  function PodMountSpec(hash: string -> int, v: AttachableVolume): (r: map<string, Value>)
    ensures r.Keys == {"volume_mounts"} && r["volume_mounts"].List? && |r["volume_mounts"].items| == 1
    ensures var m := r["volume_mounts"].items[0];
      && m.Record? && m.fields.Keys == {"name", "mountPath"}
      && m.fields["name"] == Str(ShortPvcName(hash, v))
      && m.fields["mountPath"] == Str(v.MountLocation())
  {
    map["volume_mounts" := List([Record(map["name" := Str(ShortPvcName(hash, v)), "mountPath" := Str(v.MountLocation())])])]
  }

  /** The mount a volume declares refers to the volume it declares alongside, by name. */
  lemma MountRefersToDeclaredVolume(hash: string -> int, v: AttachableVolume)
    ensures Lookup(PodMountSpec(hash, v)["volume_mounts"].items[0], ["name"])
         == Lookup(PodVolumeSpec(hash, v)["volumes"].items[0], ["name"])
  {
  }

  /**
   * An ephemeral volume, wherever it is mounted, claims `<size>Gi` of storage
   * of class "default", read-write by one node, and is mounted at its mount
   * location, which is /mnt/data unless told otherwise.
   */
  lemma EphemeralVolumeClaim(hash: string -> int, size: int, location: string)
    ensures var v := NewEphemeralVolume(size, location);
      var entry := PodVolumeSpec(hash, v)["volumes"].items[0];
      var spec := ["ephemeral", "volumeClaimTemplate", "spec"];
      && Lookup(entry, spec + ["accessModes"]) == Some(List([Str("ReadWriteOnce")]))
      && Lookup(entry, spec + ["storageClassName"]) == Some(Str("default"))
      && Lookup(entry, spec + ["resources", "requests", "storage"]) == Some(Str(Text.Decimal(size) + "Gi"))
      && Lookup(PodMountSpec(hash, v)["volume_mounts"].items[0], ["mountPath"]) == Some(Str(location))
    ensures NewEphemeralVolume(size).MountLocation() == "/mnt/data"
  {
    var entry := VolumeEntry(hash, NewEphemeralVolume(size, location));
    var spec := ["ephemeral", "volumeClaimTemplate", "spec"];
    ClaimOfEntry(hash, size, location);
    LookupAppend(entry, spec, ["accessModes"]);
    LookupAppend(entry, spec, ["storageClassName"]);
    LookupAppend(entry, spec, ["resources", "requests", "storage"]);
    ClaimSpecFields(size);
  }

  /** The volume entry of an ephemeral volume holds its claim template under ephemeral / volumeClaimTemplate / spec. */
  lemma ClaimOfEntry(hash: string -> int, size: int, location: string)
    ensures Lookup(VolumeEntry(hash, Ephemeral(size, location)), ["ephemeral", "volumeClaimTemplate", "spec"])
         == Some(ClaimSpec(size))
  {
    var entry := VolumeEntry(hash, Ephemeral(size, location));
    var spec := ["ephemeral", "volumeClaimTemplate", "spec"];
    var claim := entry.fields["ephemeral"].fields["volumeClaimTemplate"];
    assert Lookup(claim, ["spec"]) == Some(ClaimSpec(size));
    assert spec[1..] == ["volumeClaimTemplate", "spec"] && spec[1..][1..] == ["spec"];
  }

  /** The fields of the claim template. */
  lemma ClaimSpecFields(size: int)
    ensures Lookup(ClaimSpec(size), ["accessModes"]) == Some(List([Str("ReadWriteOnce")]))
    ensures Lookup(ClaimSpec(size), ["storageClassName"]) == Some(Str("default"))
    ensures Lookup(ClaimSpec(size), ["resources", "requests", "storage"]) == Some(Str(Text.Decimal(size) + "Gi"))
  {
    assert ["resources", "requests", "storage"][1..] == ["requests", "storage"];
  }

  /**
   * A blob-storage volume is mounted at /mnt/<account>/<container> through
   * the blob CSI driver, for that container, with the account's secret.
   */
  lemma BlobStorageVolumeCsi(hash: string -> int, account: string, container: string)
    ensures var v := BlobStorage(account, container);
      var entry := PodVolumeSpec(hash, v)["volumes"].items[0];
      && Lookup(entry, ["csi", "driver"]) == Some(Str("blob.csi.azure.com"))
      && Lookup(entry, ["csi", "volumeAttributes", "containerName"]) == Some(Str(container))
      && Lookup(entry, ["csi", "volumeAttributes", "secretName"]) == Some(Str("storage-sas-" + account))
      && Lookup(PodMountSpec(hash, v)["volume_mounts"].items[0], ["mountPath"])
         == Some(Str("/mnt/" + account + "/" + container))
  {
  }
}
