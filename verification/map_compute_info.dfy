/** The `MapComputeInfo` action (cloudferrylib/os/actions/map_compute_info.py):
    on a copy of the compute info, point every instance at the destination
    flavor that carries its source flavor's (possibly renamed) name, and
    place its diff file in the destination's temporary directory on the
    destination host. */
module MapComputeInfo {
  import opened Common
  import opened ComputeInfo

  const CUSTOM: string := "custom"

  /** What the action reads from the clouds and the configuration:
      `srcFlavors` maps a source flavor id to its name, `dstFlavors` a
      destination flavor name to its id, `flavorMap` is
      `instances_flavor_map`, `customFlavors` the `custom_flavors` switch,
      `temp` the destination's temporary directory and `dstIp` what
      `getIpSsh()` returns. */
  datatype Config = Config(srcFlavors: map<string, string>, dstFlavors: map<string, string>,
                           flavorMap: map<string, string>, customFlavors: bool,
                           temp: string, dstIp: string)

  /** The destination flavor name for a source flavor name: renamed through
      the flavor map when it is a key of it, then prefixed with "custom-"
      when custom flavors are on. */
  function DstFlavorName(name: string, cfg: Config): string {
    var mapped := if name in cfg.flavorMap then cfg.flavorMap[name] else name;
    if cfg.customFlavors then CUSTOM + "-" + mapped else mapped
  }

  /** The rewrite of one instance, or the KeyError of a flavor id unknown on
      the source or a flavor name unknown on the destination. */
  function MapEntry(instanceId: string, entry: InstanceEntry, cfg: Config): (r: Result<InstanceEntry>)
    ensures r.Err? <==>
              entry.instance.flavorId !in cfg.srcFlavors ||
              DstFlavorName(cfg.srcFlavors[entry.instance.flavorId], cfg) !in cfg.dstFlavors
    ensures entry.instance.flavorId !in cfg.srcFlavors ==> r == Err(KeyError(entry.instance.flavorId))
    ensures entry.instance.flavorId in cfg.srcFlavors && r.Err? ==>
              r == Err(KeyError(DstFlavorName(cfg.srcFlavors[entry.instance.flavorId], cfg)))
  {
    var flavorId := entry.instance.flavorId;
    if flavorId !in cfg.srcFlavors then Err(KeyError(flavorId))
    else
      var name := DstFlavorName(cfg.srcFlavors[flavorId], cfg);
      if name !in cfg.dstFlavors then Err(KeyError(name))
      else
        Ok(entry.(instance := entry.instance.(flavorId := cfg.dstFlavors[name]),
                  diff := entry.diff.(pathDst := Some(BaseFilePath(cfg.temp, instanceId)),
                                      hostDst := Some(cfg.dstIp))))
  }

  /** A rewritten instance runs on the destination flavor of its source
      flavor's name, its diff goes to "<temp>/temp<instance id>_base" on the
      destination host, and nothing else about it changes. */
  lemma MapEntryChanges(instanceId: string, entry: InstanceEntry, cfg: Config)
    requires MapEntry(instanceId, entry, cfg).Ok?
    ensures var e := MapEntry(instanceId, entry, cfg).value;
            && e.instance.flavorId == cfg.dstFlavors[DstFlavorName(cfg.srcFlavors[entry.instance.flavorId], cfg)]
            && e.diff.pathDst == Some(BaseFilePath(cfg.temp, instanceId))
            && e.diff.hostDst == Some(cfg.dstIp)
            && e.instance.(flavorId := entry.instance.flavorId) == entry.instance
            && e.diff.hostSrc == entry.diff.hostSrc && e.diff.pathSrc == entry.diff.pathSrc
            && e.ephemeral == entry.ephemeral && e.snapshotId == entry.snapshotId
  {
  }

  /** The flavor map renames a flavor only when its name is a key of the map;
      with custom flavors every name carries the "custom-" prefix on top of
      the mapping. */
  lemma DstFlavorNameRules(name: string, cfg: Config)
    ensures name !in cfg.flavorMap && !cfg.customFlavors ==> DstFlavorName(name, cfg) == name
    ensures name in cfg.flavorMap && !cfg.customFlavors ==> DstFlavorName(name, cfg) == cfg.flavorMap[name]
    ensures cfg.customFlavors ==>
              DstFlavorName(name, cfg) == "custom-" + DstFlavorName(name, cfg.(customFlavors := false))
  {
  }

  /** Different instances get different base files, in whatever temporary
      directory. */
  lemma BaseFilesDistinct(temp: string, id1: string, id2: string)
    requires id1 != id2
    ensures BaseFilePath(temp, id1) != BaseFilePath(temp, id2)
  {
    var p1, p2 := BaseFilePath(temp, id1), BaseFilePath(temp, id2);
    if |id1| == |id2| {
      assert p1[|temp| + 5..|temp| + 5 + |id1|] == id1;
      assert p2[|temp| + 5..|temp| + 5 + |id2|] == id2;
    } else {
      assert |p1| != |p2|;
    }
  }

  class MapComputeInfo {
    const cfg: Config

    constructor (cfg: Config)
      ensures this.cfg == cfg
    {
      this.cfg := cfg;
    }

    /** `run`: rewrite every instance of a copy of `info` in dict order; the
        first KeyError escapes and the copy is dropped. */
    method Run(info: Instances) returns (r: Result<Instances>)
      ensures r.Ok? <==> forall i :: 0 <= i < |info| ==> MapEntry(info[i].0, info[i].1, cfg).Ok?
      ensures r.Ok? ==> |r.value| == |info|
      ensures r.Ok? ==> forall i :: 0 <= i < |info| ==> r.value[i] == (info[i].0, MapEntry(info[i].0, info[i].1, cfg).value)
      ensures r.Err? ==>
                exists i :: 0 <= i < |info| && MapEntry(info[i].0, info[i].1, cfg) == Err(r.error) &&
                            forall j :: 0 <= j < i ==> MapEntry(info[j].0, info[j].1, cfg).Ok?
    {
      var copy := info;
      var i := 0;
      while i < |copy|
        invariant 0 <= i <= |info| && |copy| == |info|
        invariant copy[i..] == info[i..]
        invariant forall j :: 0 <= j < i ==> MapEntry(info[j].0, info[j].1, cfg).Ok?
        invariant forall j :: 0 <= j < i ==> copy[j] == (info[j].0, MapEntry(info[j].0, info[j].1, cfg).value)
      {
        assert copy[i] == info[i];
        var (instanceId, entry) := copy[i];
        var mapped := MapEntry(instanceId, entry, cfg);
        if mapped.Err? {
          return Err(mapped.error);
        }
        copy := copy[i := (instanceId, mapped.value)];
        i := i + 1;
      }
      r := Ok(copy);
    }
  }
}
