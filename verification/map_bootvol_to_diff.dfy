/** The `MapBootVolToDiff` action (cloudferrylib/os/actions/map_bootvol_to_diff.py):
    on a copy of the compute info, send every instance's diff to the host
    and path of its boot volume as the destination storage reports it. */
module MapBootVolToDiff {
  import opened Common
  import opened ComputeInfo

  /** Where the destination storage keeps a volume: the `host` and `path` of
      its volume body. */
  datatype VolumeLocation = VolumeLocation(host: Option<string>, path: Option<string>)

  /** The rewrite of one instance.  `dstVolumes(id)` is the destination
      storage's answer to `read_info(id=id)`, holding no entry for a volume
      it does not know.  An instance whose boot volume is None fails with
      TypeError, one whose boot volume is missing on the destination with
      KeyError of its id. */
  function MapEntry(entry: InstanceEntry, dstVolumes: string -> map<string, VolumeLocation>): (r: Result<InstanceEntry>)
    ensures entry.instance.bootVolume.None? ==> r.Err? && r.error.TypeError?
    ensures entry.instance.bootVolume.Some? ==>
              (r.Err? <==> entry.instance.bootVolume.value.id !in dstVolumes(entry.instance.bootVolume.value.id))
    ensures entry.instance.bootVolume.Some? && r.Err? ==> r.error == KeyError(entry.instance.bootVolume.value.id)
  {
    match entry.instance.bootVolume
    case None => Err(TypeError("'NoneType' object has no attribute '__getitem__'"))
    case Some(volume) =>
      var volumes := dstVolumes(volume.id);
      if volume.id !in volumes then Err(KeyError(volume.id))
      else
        var location := volumes[volume.id];
        Ok(entry.(diff := entry.diff.(hostDst := location.host, pathDst := location.path)))
  }

  /** A rewritten instance's diff goes to its boot volume's host and path on
      the destination, and nothing else about the instance changes. */
  lemma MapEntryChanges(entry: InstanceEntry, dstVolumes: string -> map<string, VolumeLocation>)
    requires MapEntry(entry, dstVolumes).Ok?
    ensures var e := MapEntry(entry, dstVolumes).value;
            var id := entry.instance.bootVolume.value.id;
            && e.diff.hostDst == dstVolumes(id)[id].host
            && e.diff.pathDst == dstVolumes(id)[id].path
            && e.diff.hostSrc == entry.diff.hostSrc && e.diff.pathSrc == entry.diff.pathSrc
            && e.instance == entry.instance && e.ephemeral == entry.ephemeral && e.snapshotId == entry.snapshotId
  {
  }

  class MapBootVolToDiff {
    const dstVolumes: string -> map<string, VolumeLocation>

    constructor (dstVolumes: string -> map<string, VolumeLocation>)
      ensures this.dstVolumes == dstVolumes
    {
      this.dstVolumes := dstVolumes;
    }

    /** `run`: rewrite every instance of a copy of `info` in dict order; the
        first exception escapes and the copy is dropped. */
    method Run(info: Instances) returns (r: Result<Instances>)
      ensures r.Ok? <==> forall i :: 0 <= i < |info| ==> MapEntry(info[i].1, dstVolumes).Ok?
      ensures r.Ok? ==> |r.value| == |info|
      ensures r.Ok? ==> forall i :: 0 <= i < |info| ==> r.value[i] == (info[i].0, MapEntry(info[i].1, dstVolumes).value)
      ensures r.Err? ==>
                exists i :: 0 <= i < |info| && MapEntry(info[i].1, dstVolumes) == Err(r.error) &&
                            forall j :: 0 <= j < i ==> MapEntry(info[j].1, dstVolumes).Ok?
    {
      var copy := info;
      var i := 0;
      while i < |copy|
        invariant 0 <= i <= |info| && |copy| == |info|
        invariant copy[i..] == info[i..]
        invariant forall j :: 0 <= j < i ==> MapEntry(info[j].1, dstVolumes).Ok?
        invariant forall j :: 0 <= j < i ==> copy[j] == (info[j].0, MapEntry(info[j].1, dstVolumes).value)
      {
        assert copy[i] == info[i];
        var (instanceId, entry) := copy[i];
        var mapped := MapEntry(entry, dstVolumes);
        if mapped.Err? {
          return Err(mapped.error);
        }
        copy := copy[i := (instanceId, mapped.value)];
        i := i + 1;
      }
      r := Ok(copy);
    }
  }
}
