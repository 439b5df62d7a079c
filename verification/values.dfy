/**
 * The contents of the Python dicts that describe pods: strings, numbers,
 * lists, nested dicts, and the one kubernetes record (`V1VolumeMount`) that
 * `get_container_with_volume_mounts` puts into a container dict.
 */
module Values {

  import opened Wrappers

  datatype Value =
    | Str(s: string)
    | Int(i: int)
    | Bool(b: bool)
    | Null
    | List(items: seq<Value>)
    | Record(fields: map<string, Value>)
    | VolumeMountObj(mountPath: Value, name: Value)

  /** Python truthiness: empty strings, zero, False, None, empty lists and empty dicts are false. */
  predicate Truthy(v: Value) {
    match v
    case Str(s) => s != ""
    case Int(i) => i != 0
    case Bool(b) => b
    case Null => false
    case List(items) => items != []
    case Record(fields) => fields != map[]
    case VolumeMountObj(_, _) => true
  }

  /** `v[k0][k1]...` through nested dicts, or `None` where a key is missing or a value is not a dict. */
  function Lookup(v: Value, path: seq<string>): Option<Value>
    decreases |path|
  {
    if path == [] then Some(v)
    else if v.Record? && path[0] in v.fields then Lookup(v.fields[path[0]], path[1..])
    else None
  }

  /** Looking up a path in two steps. */
  lemma {:induction false} LookupAppend(v: Value, path: seq<string>, rest: seq<string>)
    requires Lookup(v, path).Some?
    ensures Lookup(v, path + rest) == Lookup(Lookup(v, path).value, rest)
    decreases |path|
  {
    if path != [] {
      assert (path + rest)[0] == path[0];
      assert (path + rest)[1..] == path[1..] + rest;
      LookupAppend(v.fields[path[0]], path[1..], rest);
    } else {
      assert path + rest == rest;
    }
  }
}
