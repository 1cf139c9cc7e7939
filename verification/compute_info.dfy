/** The compute info record that nova's `convert_instance` produces
    (cloudferrylib/os/compute/nova_compute.py) and that the migration actions
    read and rewrite: `info['instances']` maps an instance id to an entry with
    the instance body, its `diff` and `ephemeral` disk descriptions and, once
    a snapshot was taken, its `snapshot_id`.

    A dict is modelled as the sequence of its items in iteration order. */
module ComputeInfo {
  import opened Common

  /** `utl.BOOT_FROM_IMAGE`, `utl.BOOT_FROM_VOLUME` or any other tag. */
  datatype BootMode = BootFromImage | BootFromVolume | OtherBootMode(tag: string)

  /** A volume as the instance body lists it; only its id is used. */
  datatype VolumeRef = VolumeRef(id: string)

  /** A disk description: source and destination host and path, each None
      until some step fills it in. */
  datatype Disk = Disk(hostSrc: Option<string>, pathSrc: Option<string>,
                       hostDst: Option<string>, pathDst: Option<string>)

  /** The fields of `instance` the modelled code reads or writes. */
  datatype InstanceBody = InstanceBody(
    id: string,
    name: string,
    tenantName: string,
    flavorId: string,
    keyName: Option<string>,
    nics: Value,
    imageId: Option<string>,
    bootMode: BootMode,
    volumes: seq<VolumeRef>,
    bootVolume: Option<VolumeRef>,
    diskSize: int)

  /** One value of `info['instances']`; `snapshotId` is None when the entry
      has no `snapshot_id` key. */
  datatype InstanceEntry = InstanceEntry(
    instance: InstanceBody,
    diff: Disk,
    ephemeral: Disk,
    snapshotId: Option<string>)

  /** `info['instances']`: (instance id, entry) pairs in iteration order. */
  type Instances = seq<(string, InstanceEntry)>

  /** The keys of a dict are distinct. */
  predicate UniqueKeys<T>(items: seq<(string, T)>) {
    forall i, j :: 0 <= i < j < |items| ==> items[i].0 != items[j].0
  }

  /** The path of an instance's base file in a temporary directory:
      "<temp>/temp<instance id>_base". */
  function BaseFilePath(temp: string, instanceId: string): (p: string)
    ensures |p| == |temp| + |instanceId| + 10
    ensures p[..|temp|] == temp && p[|temp|..|temp| + 5] == "/temp"
    ensures p[|temp| + 5..|temp| + 5 + |instanceId|] == instanceId
    ensures p[|p| - 5..] == "_base"
  {
    temp + "/temp" + instanceId + "_base"
  }
}
