/** The `IsBootFromVolume` action (cloudferrylib/os/actions/is_boot_from_volume.py):
    the branch choice of a migration scenario, which takes the direct flow
    when the first instance boots from a volume. */
module IsBootFromVolume {
  import opened Common
  import opened ComputeInfo

  /** The paths an action can select for the scenario to go on with. */
  const DEFAULT: int := 0
  const DIRECT_FLOW: int := 1

  /** The path the action selects for `info`, or the IndexError of an info
      without instances; the first instance is the first in dict order. */
  function NextPathFor(info: Instances): (r: Result<int>)
    ensures r.Err? <==> info == []
    ensures r.Err? ==> r.error == IndexError
    ensures r.Ok? ==> (r.value == DIRECT_FLOW <==> info[0].1.instance.bootMode == BootFromVolume)
    ensures r.Ok? ==> r.value == DEFAULT || r.value == DIRECT_FLOW
  {
    if info == [] then Err(IndexError)
    else if info[0].1.instance.bootMode == BootFromVolume then Ok(DIRECT_FLOW)
    else Ok(DEFAULT)
  }

  /** Only the first instance counts: instances after it never change the
      choice. */
  lemma OnlyFirstInstanceCounts(info: Instances, more: Instances)
    requires info != []
    ensures NextPathFor(info + more) == NextPathFor(info)
  {
    assert (info + more)[0] == info[0];
  }

  class IsBootFromVolume {
    var nextPath: int

    constructor ()
      ensures nextPath == DEFAULT
    {
      nextPath := DEFAULT;
    }

    /** `run`: reset the path to the default, then select the direct flow for
        a first instance that boots from a volume.  The result is the empty
        mapping; an info without instances fails after the reset. */
    method Run(info: Instances) returns (r: Result<map<string, Value>>)
      modifies this
      ensures NextPathFor(info).Ok? ==> r == Ok(map[]) && nextPath == NextPathFor(info).value
      ensures NextPathFor(info).Err? ==> r == Err(NextPathFor(info).error) && nextPath == DEFAULT
    {
      nextPath := DEFAULT;
      if info == [] {
        return Err(IndexError);
      }
      var instanceBoot := info[0].1.instance.bootMode;
      if instanceBoot == BootFromVolume {
        nextPath := DIRECT_FLOW;
      }
      r := Ok(map[]);
    }
  }
}
