/** The `ConvertFile` action (cloudferrylib/os/actions/convert_file.py): turn
    the base files of the instances' images, or their diff or ephemeral
    disks, into raw files with `qemu-img` on the host that holds them.

    The remote shell is modelled by the commands the action issues, each
    with the host it runs on. */
module ConvertFile {
  import opened Common
  import opened ComputeInfo

  const IMAGE: string := "image"
  const EPHEMERAL: string := "ephemeral"
  const DIFF: string := "diff"
  /** The raw disk format's name (`utl.RAW`). */
  const RAW: string := "raw"

  /** What the action was built to convert: `IMAGE`, `utl.DISK`,
      `utl.DISK_EPHEM`, or anything else (which converts nothing). */
  datatype FileType = ImageFile | DiskFile | EphemeralDiskFile | OtherFile

  /** A shell command run through fabric on a host: a `qemu-img` conversion
      to raw, or a forced move. */
  datatype Command =
    | ConvertToRaw(host: Option<string>, source: string, target: string)
    | Move(host: Option<string>, source: string, target: string)

  /** The command line as the action formats it. */
  function Line(c: Command): string {
    match c
    case ConvertToRaw(_, source, target) => "qemu-img convert -O raw " + source + " " + target
    case Move(_, source, target) => "mv -f " + source + " " + target
  }

  /** `"%s" % x` of an optional string: None prints as "None". */
  function PyStr(o: Option<string>): string {
    if o.Some? then o.value else "None"
  }

  /** The commands `convert_file_to_raw` ran and the path it returned, or the
      TypeError of appending ".tmp" to a path that is None. */
  datatype Converted = Converted(commands: seq<Command>, path: Result<string>)

  /** `convert_file_to_raw`: convert the file into "<path>.tmp", then, with
      `moveToOrig`, move it back over the original.  The result is the path
      holding the raw file. */
  function ConvertFileToRaw(host: Option<string>, filepath: Option<string>, moveToOrig: bool): (c: Converted)
    ensures c.path.Err? <==> filepath.None?
    ensures c.path.Ok? && !moveToOrig ==> c.path.value == filepath.value + ".tmp"
    ensures c.path.Ok? && moveToOrig ==> c.path.value == filepath.value
    ensures |c.commands| == (if moveToOrig && filepath.Some? then 2 else 1)
    ensures c.commands[0].host == host && c.commands[|c.commands| - 1].host == host
  {
    var convert := ConvertToRaw(host, PyStr(filepath), PyStr(filepath) + ".tmp");
    if filepath.None? then Converted([convert], Err(TypeError("unsupported operand type(s) for +: 'NoneType' and 'str'")))
    else if moveToOrig then Converted([convert, Move(host, filepath.value + ".tmp", filepath.value)], Ok(filepath.value))
    else Converted([convert], Ok(filepath.value + ".tmp"))
  }

  /** The raw file is written where the result says: the conversion writes
      "<path>.tmp", which is the result without `moveToOrig`, and with it the
      move takes exactly that file back to the original path. */
  lemma ConvertedFileIsWritten(host: Option<string>, filepath: string, moveToOrig: bool)
    ensures var c := ConvertFileToRaw(host, Some(filepath), moveToOrig);
            && c.commands[0] == ConvertToRaw(host, filepath, filepath + ".tmp")
            && (moveToOrig ==> c.commands[1] == Move(host, c.commands[0].target, c.path.value))
            && (!moveToOrig ==> c.path.value == c.commands[0].target)
  {
  }

  /** The disk of an instance that `instance[disk_type]` names. */
  function DiskOf(entry: InstanceEntry, diskType: string): Disk
    requires diskType == DIFF || diskType == EPHEMERAL
  {
    if diskType == DIFF then entry.diff else entry.ephemeral
  }

  /** One instance of `convert_disk`: the disk's source file is converted on
      its source host and the disk's `path_src` becomes the converted file. */
  datatype DiskStep = DiskStep(commands: seq<Command>, entry: Result<InstanceEntry>)

  function ConvertDiskEntry(entry: InstanceEntry, diskType: string): (s: DiskStep)
    requires diskType == DIFF || diskType == EPHEMERAL
    ensures s.entry.Err? <==> DiskOf(entry, diskType).pathSrc.None?
  {
    var disk := DiskOf(entry, diskType);
    var c := ConvertFileToRaw(disk.hostSrc, disk.pathSrc, false);
    if c.path.Err? then DiskStep(c.commands, Err(c.path.error))
    else
      var newDisk := disk.(pathSrc := Some(c.path.value));
      DiskStep(c.commands, Ok(if diskType == DIFF then entry.(diff := newDisk) else entry.(ephemeral := newDisk)))
  }

  /** Converting a disk runs one conversion on the disk's source host,
      replaces its `path_src` by "<path_src>.tmp" and changes nothing else
      about the instance. */
  lemma ConvertDiskEntryChanges(entry: InstanceEntry, diskType: string)
    requires diskType == DIFF || diskType == EPHEMERAL
    requires DiskOf(entry, diskType).pathSrc.Some?
    ensures var s := ConvertDiskEntry(entry, diskType);
            |s.commands| == 1 && s.commands[0].host == DiskOf(entry, diskType).hostSrc
    ensures var e := ConvertDiskEntry(entry, diskType).entry.value;
            && DiskOf(e, diskType).pathSrc == Some(DiskOf(entry, diskType).pathSrc.value + ".tmp")
            && DiskOf(e, diskType).(pathSrc := DiskOf(entry, diskType).pathSrc) == DiskOf(entry, diskType)
            && (diskType == DIFF ==> e.ephemeral == entry.ephemeral)
            && (diskType == EPHEMERAL ==> e.diff == entry.diff)
            && e.instance == entry.instance && e.snapshotId == entry.snapshotId
  {
  }

  /** The state of `convert_disk` after the first `n` instances: the
      instances so far, rewritten, the commands run, and the TypeError that
      stopped it, if any. */
  datatype DiskRunState = DiskRunState(entries: Instances, commands: seq<Command>, error: Option<Error>)

  function DiskRun(info: Instances, diskType: string, n: nat): DiskRunState
    requires diskType == DIFF || diskType == EPHEMERAL
    requires n <= |info|
  {
    if n == 0 then DiskRunState([], [], None)
    else
      var before := DiskRun(info, diskType, n - 1);
      if before.error.Some? then before
      else DiskRunStep(before, info[n - 1], diskType)
  }

  /** The state after converting one more instance. */
  function DiskRunStep(before: DiskRunState, item: (string, InstanceEntry), diskType: string): (after: DiskRunState)
    requires diskType == DIFF || diskType == EPHEMERAL
    ensures after.error.Some? <==> DiskOf(item.1, diskType).pathSrc.None?
  {
    var step := ConvertDiskEntry(item.1, diskType);
    match step.entry
    case Err(e) => DiskRunState(before.entries, before.commands + step.commands, Some(e))
    case Ok(entry) => DiskRunState(before.entries + [(item.0, entry)], before.commands + step.commands, None)
  }

  /** Once an instance failed, later instances are left alone. */
  lemma {:induction false} DiskRunStopped(info: Instances, diskType: string, n: nat, m: nat)
    requires diskType == DIFF || diskType == EPHEMERAL
    requires n <= m <= |info|
    requires DiskRun(info, diskType, n).error.Some?
    ensures DiskRun(info, diskType, m) == DiskRun(info, diskType, n)
    decreases m - n
  {
    if n < m {
      DiskRunStopped(info, diskType, n, m - 1);
    }
  }

  /** The run fails exactly when some instance's disk has no source path,
      and then with TypeError. */
  lemma {:induction false} DiskRunFails(info: Instances, diskType: string, n: nat)
    requires diskType == DIFF || diskType == EPHEMERAL
    requires n <= |info|
    ensures var run := DiskRun(info, diskType, n);
            run.error.None? <==> forall i :: 0 <= i < n ==> DiskOf(info[i].1, diskType).pathSrc.Some?
    ensures var run := DiskRun(info, diskType, n);
            run.error.Some? ==> run.error.value.TypeError?
  {
    if n > 0 {
      DiskRunFails(info, diskType, n - 1);
    }
  }

  /** A completed run rewrote every instance, in order, under its own id. */
  lemma {:induction false} DiskRunConverts(info: Instances, diskType: string, n: nat, i: nat)
    requires diskType == DIFF || diskType == EPHEMERAL
    requires i < n <= |info|
    requires DiskRun(info, diskType, n).error.None?
    ensures var run := DiskRun(info, diskType, n);
            && |run.entries| == n
            && run.entries[i].0 == info[i].0 && ConvertDiskEntry(info[i].1, diskType).entry == Ok(run.entries[i].1)
  {
    DiskRunLength(info, diskType, n);
    if i < n - 1 {
      DiskRunConverts(info, diskType, n - 1, i);
    }
  }

  lemma {:induction false} DiskRunLength(info: Instances, diskType: string, n: nat)
    requires diskType == DIFF || diskType == EPHEMERAL
    requires n <= |info|
    requires DiskRun(info, diskType, n).error.None?
    ensures |DiskRun(info, diskType, n).entries| == n
  {
    if n > 0 {
      DiskRunLength(info, diskType, n - 1);
    }
  }

  /** One instance of `convert_image`: the commands converting its image's
      base file, none when the image is raw already, or the KeyError of an
      image the image resource does not report.  `diskFormat(id)` is the
      `disk_format` of image `id` in the image resource's answer, None when
      the answer does not hold it. */
  function ImageCommands(instanceId: string, entry: InstanceEntry, diskFormat: Option<string> -> Option<string>,
                         temp: string, host: string): (r: Result<seq<Command>>)
    ensures r.Err? <==> diskFormat(entry.instance.imageId).None?
    ensures r.Err? ==> r.error == KeyError(PyStr(entry.instance.imageId))
    ensures r.Ok? ==> (r.value == [] <==> Lower(diskFormat(entry.instance.imageId).value) == RAW)
  {
    var imageId := entry.instance.imageId;
    var format := diskFormat(imageId);
    if format.None? then Err(KeyError(PyStr(imageId)))
    else if Lower(format.value) != RAW then
      Ok(ConvertFileToRaw(Some(host), Some(BaseFilePath(temp, instanceId)), true).commands)
    else Ok([])
  }

  /** An instance whose image is not raw has its base file
      "<temp>/temp<instance id>_base" converted on the configured host and
      moved back into place. */
  lemma ImageCommandsConvertBaseFile(instanceId: string, entry: InstanceEntry,
                                     diskFormat: Option<string> -> Option<string>, temp: string, host: string)
    requires ImageCommands(instanceId, entry, diskFormat, temp, host).Ok?
    requires ImageCommands(instanceId, entry, diskFormat, temp, host).value != []
    ensures var cs := ImageCommands(instanceId, entry, diskFormat, temp, host).value;
            var base := BaseFilePath(temp, instanceId);
            cs == [ConvertToRaw(Some(host), base, base + ".tmp"), Move(Some(host), base + ".tmp", base)]
  {
  }

  /** The commands `convert_image` issues for the first `n` instances, and
      the KeyError that stopped it, if any. */
  function ImageRun(info: Instances, diskFormat: Option<string> -> Option<string>, temp: string, host: string,
                    n: nat): Partial<Command>
    requires n <= |info|
  {
    if n == 0 then Partial([], None)
    else
      var before := ImageRun(info, diskFormat, temp, host, n - 1);
      if before.error.Some? then before
      else match ImageCommands(info[n - 1].0, info[n - 1].1, diskFormat, temp, host)
        case Err(e) => Partial(before.values, Some(e))
        case Ok(cs) => Partial(before.values + cs, None)
  }

  /** Once an image was missing, later instances issue nothing more. */
  lemma {:induction false} ImageRunStopped(info: Instances, diskFormat: Option<string> -> Option<string>,
                                           temp: string, host: string, n: nat, m: nat)
    requires n <= m <= |info|
    requires ImageRun(info, diskFormat, temp, host, n).error.Some?
    ensures ImageRun(info, diskFormat, temp, host, m) == ImageRun(info, diskFormat, temp, host, n)
    decreases m - n
  {
    if n < m {
      ImageRunStopped(info, diskFormat, temp, host, n, m - 1);
    }
  }

  /** The run fails exactly when some instance's image is missing, and then
      with a KeyError. */
  lemma {:induction false} ImageRunFails(info: Instances, diskFormat: Option<string> -> Option<string>,
                                         temp: string, host: string, n: nat)
    requires n <= |info|
    ensures var run := ImageRun(info, diskFormat, temp, host, n);
            run.error.None? <==> forall i :: 0 <= i < n ==> diskFormat(info[i].1.instance.imageId).Some?
    ensures var run := ImageRun(info, diskFormat, temp, host, n);
            run.error.Some? ==> run.error.value.KeyError?
  {
    if n > 0 {
      ImageRunFails(info, diskFormat, temp, host, n - 1);
    }
  }

  /** A completed run holds, in instance order, the commands of every
      instance: each instance's block follows those of the instances before
      it. */
  lemma {:induction false} ImageRunConverts(info: Instances, diskFormat: Option<string> -> Option<string>,
                                            temp: string, host: string, n: nat, i: nat)
    requires i < n <= |info|
    requires ImageRun(info, diskFormat, temp, host, n).error.None?
    ensures ImageCommands(info[i].0, info[i].1, diskFormat, temp, host).Ok?
    ensures ImageRun(info, diskFormat, temp, host, i).values + ImageCommands(info[i].0, info[i].1, diskFormat, temp, host).value
              <= ImageRun(info, diskFormat, temp, host, n).values
    decreases n
  {
    if i < n - 1 {
      ImageRunConverts(info, diskFormat, temp, host, n - 1, i);
    }
  }

  class ConvertFile {
    const filetype: FileType
    /** The value of `utl.DISK_EPHEM`, the disk type passed for ephemeral disks. */
    const diskEphem: string
    /** The image resource's `convert_to_raw` setting. */
    const convertToRaw: bool
    /** The cloud's `temp` directory and `host`. */
    const temp: string
    const host: string
    const diskFormat: Option<string> -> Option<string>

    constructor (filetype: FileType, diskEphem: string, convertToRaw: bool, temp: string, host: string,
                 diskFormat: Option<string> -> Option<string>)
      ensures this.filetype == filetype && this.diskEphem == diskEphem && this.convertToRaw == convertToRaw
      ensures this.temp == temp && this.host == host && this.diskFormat == diskFormat
    {
      this.filetype := filetype;
      this.diskEphem := diskEphem;
      this.convertToRaw := convertToRaw;
      this.temp := temp;
      this.host := host;
      this.diskFormat := diskFormat;
    }

    /** `convert_disk`: a disk type other than diff or ephemeral raises
        TypeError before anything runs; otherwise every instance's disk is
        converted. */
    method ConvertDisk(info: Instances, diskType: string) returns (r: Result<Instances>, commands: seq<Command>)
      ensures diskType != DIFF && diskType != EPHEMERAL ==> r.Err? && r.error.TypeError? && commands == []
      ensures diskType == DIFF || diskType == EPHEMERAL ==>
                var run := DiskRun(info, diskType, |info|);
                && commands == run.commands
                && r == (if run.error.None? then Ok(run.entries) else Err(run.error.value))
    {
      if diskType != DIFF && diskType != EPHEMERAL {
        return Err(TypeError("You need to pass only diff or ephemeral disk types")), [];
      }
      r, commands := ConvertEachDisk(info, diskType);
    }

    /** The loop of `convert_disk`: in dict order, convert each instance's
        disk and rewrite its `path_src`, until one without a source path
        fails.  The rewritten instances are collected in order, which is what
        the in-place rewrite of the copied dict leaves. */
    method ConvertEachDisk(info: Instances, diskType: string) returns (r: Result<Instances>, commands: seq<Command>)
      requires diskType == DIFF || diskType == EPHEMERAL
      ensures var run := DiskRun(info, diskType, |info|);
              && commands == run.commands
              && r == (if run.error.None? then Ok(run.entries) else Err(run.error.value))
    {
      var converted: Instances := [];
      commands := [];
      var i := 0;
      while i < |info|
        invariant 0 <= i <= |info|
        invariant DiskRun(info, diskType, i) == DiskRunState(converted, commands, None)
      {
        var (instanceId, entry) := info[i];
        var step := ConvertDiskEntry(entry, diskType);
        commands := commands + step.commands;
        if step.entry.Err? {
          DiskRunStopped(info, diskType, i + 1, |info|);
          return Err(step.entry.error), commands;
        }
        converted := converted + [(instanceId, step.entry.value)];
        i := i + 1;
      }
      r := Ok(converted);
    }

    /** `convert_image`: nothing when the images are converted to raw on
        upload; otherwise, in dict order, convert the base file of every
        instance whose image is not raw, until an image is missing. */
    method ConvertImage(info: Instances) returns (err: Option<Error>, commands: seq<Command>)
      ensures convertToRaw ==> err.None? && commands == []
      ensures !convertToRaw ==> ImageRun(info, diskFormat, temp, host, |info|) == Partial(commands, err)
    {
      if convertToRaw {
        return None, [];
      }
      commands := [];
      var i := 0;
      while i < |info|
        invariant 0 <= i <= |info|
        invariant ImageRun(info, diskFormat, temp, host, i) == Partial(commands, None)
      {
        var (instanceId, entry) := info[i];
        var step := ImageCommands(instanceId, entry, diskFormat, temp, host);
        if step.Err? {
          ImageRunStopped(info, diskFormat, temp, host, i + 1, |info|);
          return Some(step.error), commands;
        }
        commands := commands + step.value;
        i := i + 1;
      }
      err := None;
    }

    /** `run`: dispatch on the file type; the info comes back converted for
        disks and unchanged otherwise. */
    method Run(info: Instances) returns (r: Result<Instances>, commands: seq<Command>)
      ensures filetype == OtherFile ==> r == Ok(info) && commands == []
      ensures filetype == ImageFile ==>
                if convertToRaw then r == Ok(info) && commands == []
                else var run := ImageRun(info, diskFormat, temp, host, |info|);
                     commands == run.values && r == (if run.error.None? then Ok(info) else Err(run.error.value))
      ensures filetype == DiskFile ==>
                var run := DiskRun(info, DIFF, |info|);
                commands == run.commands && r == (if run.error.None? then Ok(run.entries) else Err(run.error.value))
      ensures filetype == EphemeralDiskFile && diskEphem != DIFF && diskEphem != EPHEMERAL ==>
                r.Err? && r.error.TypeError? && commands == []
      ensures filetype == EphemeralDiskFile && (diskEphem == DIFF || diskEphem == EPHEMERAL) ==>
                var run := DiskRun(info, diskEphem, |info|);
                commands == run.commands && r == (if run.error.None? then Ok(run.entries) else Err(run.error.value))
    {
      match filetype
      case ImageFile =>
        var err;
        err, commands := ConvertImage(info);
        r := if err.Some? then Err(err.value) else Ok(info);
      case DiskFile =>
        r, commands := ConvertDisk(info, DIFF);
      case EphemeralDiskFile =>
        r, commands := ConvertDisk(info, diskEphem);
      case OtherFile =>
        r, commands := Ok(info), [];
    }
  }
}
