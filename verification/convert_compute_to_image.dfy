/** The `ConvertComputeToImage` action
    (cloudferrylib/os/actions/convert_compute_to_image.py): group the
    instances of a compute info by the image they boot from, so that images
    can be migrated together with the instances that use them.  Instances
    without an image are set aside as ignored. */
module ConvertComputeToImage {
  import opened Common
  import opened ComputeInfo

  const SNAPSHOT: string := "snapshot"

  /** A volume body as the storage resource reports it;
      `imageMetadata` is None when it has no `volume_image_metadata`. */
  datatype VolumeBody = VolumeBody(imageMetadata: Option<map<string, string>>)

  /** The image resource's record of an image: its body and its meta. */
  datatype ImageInfo = ImageInfo(fields: map<string, Value>)

  /** What the action reads besides the info: whether the migration
      strategy is 'snapshot', the storage's volumes (`storage(id)` is the
      answer to `read_info(id=id)`), and the `images` map the image resource
      answers to `read_info(image_id=id)`.  The glance resource ignores the
      argument and answers with every active image. */
  datatype Env = Env(snapshotStrategy: bool, storage: string -> map<string, VolumeBody>,
                     readImages: string -> map<string, ImageInfo>)

  /** `get_image_id_from_volume(get_boot_volume(instance), storage)`: the
      `image_id` of the boot volume's image metadata, None when it has none. */
  function ImageIdFromVolume(volume: Option<VolumeRef>, storage: string -> map<string, VolumeBody>): (r: Result<Option<string>>)
    ensures volume.None? ==> r.Err? && r.error.TypeError?
    ensures volume.Some? && volume.value.id !in storage(volume.value.id) ==> r == Err(KeyError(volume.value.id))
    ensures volume.Some? && volume.value.id in storage(volume.value.id) ==>
              var meta := storage(volume.value.id)[volume.value.id].imageMetadata;
              && (meta.None? ==> r == Err(KeyError("volume_image_metadata")))
              && (meta.Some? ==> r == Ok(if "image_id" in meta.value then Some(meta.value["image_id"]) else None))
  {
    match volume
    case None => Err(TypeError("'NoneType' object has no attribute '__getitem__'"))
    case Some(v) =>
      var volumes := storage(v.id);
      if v.id !in volumes then Err(KeyError(v.id))
      else
        var meta := volumes[v.id].imageMetadata;
        if meta.None? then Err(KeyError("volume_image_metadata"))
        else Ok(if "image_id" in meta.value then Some(meta.value["image_id"]) else None)
  }

  /** The image an instance boots from, with `image_id` bound afresh in each
      iteration: a boot-from-volume instance with volumes takes it from its
      boot volume; one without volumes assigns nothing, which is
      UnboundLocalError; any other instance uses its `image_id`, or its
      `snapshot_id` under the snapshot strategy, which raises KeyError when
      the entry has none. */
  function ImageIdOf(entry: InstanceEntry, env: Env): (r: Result<Option<string>>)
    ensures entry.instance.bootMode == BootFromVolume && entry.instance.volumes != [] ==>
              r == ImageIdFromVolume(entry.instance.bootVolume, env.storage)
    ensures entry.instance.bootMode == BootFromVolume && entry.instance.volumes == [] ==>
              r == Err(UnboundLocalError("image_id"))
    ensures entry.instance.bootMode != BootFromVolume && !env.snapshotStrategy ==> r == Ok(entry.instance.imageId)
    ensures entry.instance.bootMode != BootFromVolume && env.snapshotStrategy ==>
              r == (if entry.snapshotId.Some? then Ok(entry.snapshotId) else Err(KeyError("snapshot_id")))
  {
    if entry.instance.bootMode == BootFromVolume then
      if entry.instance.volumes != [] then ImageIdFromVolume(entry.instance.bootVolume, env.storage)
      else Err(UnboundLocalError("image_id"))
    else if env.snapshotStrategy then
      if entry.snapshotId.Some? then Ok(entry.snapshotId) else Err(KeyError("snapshot_id"))
    else Ok(entry.instance.imageId)
  }

  /** The binding of the loop variable `image_id` when an iteration starts. */
  datatype Binding = Unbound | Bound(imageId: Option<string>)

  /** The image an instance resolves to as the loop is written: a
      boot-from-volume instance without volumes assigns nothing, so it gets
      the image of the instance before it, or UnboundLocalError when it is
      the first. */
  function ImageIdAsWritten(entry: InstanceEntry, last: Binding, env: Env): (r: Result<Option<string>>)
    ensures !(entry.instance.bootMode == BootFromVolume && entry.instance.volumes == []) ==> r == ImageIdOf(entry, env)
    ensures entry.instance.bootMode == BootFromVolume && entry.instance.volumes == [] ==>
              r == (if last.Bound? then Ok(last.imageId) else Err(UnboundLocalError("image_id")))
  {
    if entry.instance.bootMode == BootFromVolume && entry.instance.volumes == [] && last.Bound? then Ok(last.imageId)
    else ImageIdOf(entry, env)
  }

  /** An entry of the images body: the image record (None for the empty
      placeholder body) and the meta's `instance` list, None when the meta
      has no such key, as in the records the image resource returns. */
  datatype ImageGroup = ImageGroup(image: Option<ImageInfo>, instances: Option<seq<InstanceEntry>>)

  /** The images body and `compute_ignored_images` built so far. */
  datatype Grouping = Grouping(images: map<string, ImageGroup>, ignored: map<string, InstanceEntry>)

  /** The image resource's records as entries of the images body. */
  function Records(img: map<string, ImageInfo>): (r: map<string, ImageGroup>)
    ensures r.Keys == img.Keys
    ensures forall k :: k in img ==> r[k] == ImageGroup(Some(img[k]), None)
  {
    map k | k in img :: ImageGroup(Some(img[k]), None)
  }

  /** The record of `id` alone, when `img` has one. */
  function Only(img: map<string, ImageInfo>, id: string): (r: map<string, ImageInfo>)
    ensures r.Keys <= {id} && r.Keys <= img.Keys
    ensures id in img ==> id in r && r[id] == img[id]
  {
    if id in img then map[id := img[id]] else map[]
  }

  /** One iteration's update, given the images `img` read for the instance's
      image id: an instance with a truthy image id already in the body is
      appended to its entry's instance list, which is KeyError when the
      entry's meta has none; a new id gets a placeholder entry, then every
      read record is merged into the body, overwriting entries already
      there, and the id's entry gets the instance as its list; any other
      instance is ignored under its id. */
  function AddInstance(g: Grouping, instanceId: string, entry: InstanceEntry, imageId: Option<string>,
                       img: map<string, ImageInfo>): (r: Result<Grouping>)
    ensures !Present(imageId) ==> r == Ok(g.(ignored := g.ignored[instanceId := entry]))
    ensures Present(imageId) && imageId.value in g.images ==>
              var old_ := g.images[imageId.value];
              && (r.Err? <==> old_.instances.None?)
              && (r.Err? ==> r.error == KeyError("instance"))
              && (r.Ok? ==> r.value == g.(images := g.images[imageId.value := old_.(instances := Some(old_.instances.value + [entry]))]))
    ensures Present(imageId) && imageId.value !in g.images ==>
              var id := imageId.value;
              && r.Ok? && r.value.ignored == g.ignored
              && r.value.images.Keys == g.images.Keys + img.Keys + {id}
              && r.value.images[id] == ImageGroup(if id in img then Some(img[id]) else None, Some([entry]))
              && (forall k :: k in img && k != id ==> r.value.images[k] == ImageGroup(Some(img[k]), None))
              && (forall k :: k in g.images && k !in img ==> r.value.images[k] == g.images[k])
  {
    if Present(imageId) then
      var id := imageId.value;
      if id in g.images then
        var group := g.images[id];
        if group.instances.None? then Err(KeyError("instance"))
        else Ok(g.(images := g.images[id := group.(instances := Some(group.instances.value + [entry]))]))
      else
        var placed := g.images[id := ImageGroup(None, Some([entry]))];
        if img == map[] then Ok(g.(images := placed))
        else
          var merged := placed + Records(img);
          Ok(g.(images := merged[id := merged[id].(instances := Some([entry]))]))
    else Ok(g.(ignored := g.ignored[instanceId := entry]))
  }

  /** The loop's state after the first `n` instances: the grouping, the
      binding of `image_id`, and the exception that stopped it, if any. */
  datatype RunState = RunState(grouping: Grouping, last: Binding, error: Option<Error>)

  /** The loop over the first `n` instances.  `asWritten` selects the code
      as written: `image_id` carried over between iterations and every image
      the read returns merged; otherwise `image_id` is bound afresh in each
      iteration and only the requested image's record is merged. */
  function GroupRun(info: Instances, env: Env, asWritten: bool, n: nat): RunState
    requires n <= |info|
  {
    if n == 0 then RunState(Grouping(map[], map[]), Unbound, None)
    else
      var before := GroupRun(info, env, asWritten, n - 1);
      if before.error.Some? then before
      else
        var (instanceId, entry) := info[n - 1];
        var imageId := if asWritten then ImageIdAsWritten(entry, before.last, env) else ImageIdOf(entry, env);
        match imageId
        case Err(e) => before.(error := Some(e))
        case Ok(id) =>
          var img := if !Present(id) then map[]
                     else if asWritten then env.readImages(id.value)
                     else Only(env.readImages(id.value), id.value);
          match AddInstance(before.grouping, instanceId, entry, id, img)
          case Err(e) => before.(error := Some(e))
          case Ok(g) => RunState(g, Bound(id), None)
  }

  /** Once an instance failed, the later ones are not looked at. */
  lemma {:induction false} GroupRunStopped(info: Instances, env: Env, asWritten: bool, n: nat, m: nat)
    requires n <= m <= |info|
    requires GroupRun(info, env, asWritten, n).error.Some?
    ensures GroupRun(info, env, asWritten, m) == GroupRun(info, env, asWritten, n)
    decreases m - n
  {
    if n < m {
      GroupRunStopped(info, env, asWritten, n, m - 1);
    }
  }

  /** The instances among the first `n` that boot from image `id`, in order. */
  function InstancesWithImage(info: Instances, env: Env, id: string, n: nat): seq<InstanceEntry>
    requires n <= |info|
  {
    if n == 0 then []
    else if ImageIdOf(info[n - 1].1, env) == Ok(Some(id)) then InstancesWithImage(info, env, id, n - 1) + [info[n - 1].1]
    else InstancesWithImage(info, env, id, n - 1)
  }

  /** The record the image resource gives for `id` itself, if any. */
  function RecordOf(env: Env, id: string): Option<ImageInfo> {
    if id in env.readImages(id) then Some(env.readImages(id)[id]) else None
  }

  /** Resolved as intended, instances resolving to the same truthy image id
      end up under one entry, in order, and only they: the entry exists
      exactly when one does, and it carries the image resource's record of
      the id. */
  lemma {:induction false} GroupedByImage(info: Instances, env: Env, n: nat, id: string)
    requires n <= |info|
    requires GroupRun(info, env, false, n).error.None?
    ensures var images := GroupRun(info, env, false, n).grouping.images;
            && (id in images <==> id != "" && InstancesWithImage(info, env, id, n) != [])
            && (id in images ==> images[id] == ImageGroup(RecordOf(env, id), Some(InstancesWithImage(info, env, id, n))))
  {
    if n > 0 {
      var before := GroupRun(info, env, false, n - 1);
      assert before.error.None?;
      GroupedByImage(info, env, n - 1, id);
      var (instanceId, entry) := info[n - 1];
      var x := ImageIdOf(entry, env);
      assert x.Ok?;
      if Present(x.value) {
        var img := Only(env.readImages(x.value.value), x.value.value);
        var r := AddInstance(before.grouping, instanceId, entry, x.value, img);
        if x.value.value in before.grouping.images {
          GroupedByImage(info, env, n - 1, x.value.value);
        }
        assert r.Ok?;
        assert GroupRun(info, env, false, n).grouping == r.value;
        if x.value.value != id {
          assert id !in img;
        } else {
          assert InstancesWithImage(info, env, id, n) == InstancesWithImage(info, env, id, n - 1) + [entry];
          if id !in before.grouping.images {
            assert InstancesWithImage(info, env, id, n - 1) == [];
            assert (id in img) == (id in env.readImages(id));
            assert (if id in img then Some(img[id]) else None) == RecordOf(env, id);
            assert r.value.images[id] == ImageGroup(RecordOf(env, id), Some([entry]));
            assert InstancesWithImage(info, env, id, n) == [entry];
            assert GroupRun(info, env, false, n).grouping.images[id] == r.value.images[id];
          }
        }
      }
    }
  }

  /** Resolved as intended, the run fails exactly when some instance's image
      cannot be resolved, and then with that instance's error. */
  lemma {:induction false} GroupRunFails(info: Instances, env: Env, n: nat)
    requires n <= |info|
    ensures GroupRun(info, env, false, n).error.None? <==> forall j :: 0 <= j < n ==> ImageIdOf(info[j].1, env).Ok?
    ensures GroupRun(info, env, false, n).error.Some? ==>
              exists j :: 0 <= j < n && ImageIdOf(info[j].1, env) == Err(GroupRun(info, env, false, n).error.value)
  {
    if n > 0 {
      GroupRunFails(info, env, n - 1);
      var before := GroupRun(info, env, false, n - 1);
      var id := ImageIdOf(info[n - 1].1, env);
      if before.error.None? && id.Ok? && Present(id.value) {
        GroupedByImage(info, env, n - 1, id.value.value);
      }
    }
  }

  /** An instance is in the filtered list exactly when it resolves to that
      image. */
  lemma {:induction false} InstancesWithImageExist(info: Instances, env: Env, id: string, n: nat)
    requires n <= |info|
    ensures InstancesWithImage(info, env, id, n) != [] <==> exists j :: 0 <= j < n && ImageIdOf(info[j].1, env) == Ok(Some(id))
  {
    if n > 0 {
      InstancesWithImageExist(info, env, id, n - 1);
    }
  }

  /** Resolved as intended, an instance id is ignored exactly when some
      instance under it resolves to no image or an empty one. */
  lemma {:induction false} IgnoredWithoutImage(info: Instances, env: Env, n: nat, instanceId: string)
    requires n <= |info|
    requires GroupRun(info, env, false, n).error.None?
    ensures instanceId in GroupRun(info, env, false, n).grouping.ignored <==>
              exists j :: 0 <= j < n && info[j].0 == instanceId && ImageIdOf(info[j].1, env).Ok? &&
                          !Present(ImageIdOf(info[j].1, env).value)
  {
    if n > 0 {
      IgnoredWithoutImage(info, env, n - 1, instanceId);
    }
  }

  /** The code as written behaves as intended whenever no instance is a
      boot-from-volume instance without volumes and the image resource
      answers with the requested image alone. */
  lemma {:induction false} AsWrittenAgrees(info: Instances, env: Env, n: nat)
    requires n <= |info|
    requires forall j :: 0 <= j < n ==> !(info[j].1.instance.bootMode == BootFromVolume && info[j].1.instance.volumes == [])
    requires forall id :: env.readImages(id).Keys <= {id}
    ensures GroupRun(info, env, true, n) == GroupRun(info, env, false, n)
  {
    if n > 0 {
      AsWrittenAgrees(info, env, n - 1);
      var before := GroupRun(info, env, false, n - 1);
      var id := ImageIdOf(info[n - 1].1, env);
      if before.error.None? && id.Ok? && Present(id.value) {
        var m := env.readImages(id.value.value);
        assert Only(m, id.value.value) == m;
      }
    }
  }

  /** As written, a boot-from-volume instance without volumes that follows a
      boot-from-image instance joins that instance's image; with `image_id`
      bound per iteration it raises UnboundLocalError instead. */
  lemma StaleImageIdGroupsVolumeInstance(id1: string, e1: InstanceEntry, id2: string, e2: InstanceEntry, env: Env)
    requires e1.instance.bootMode == BootFromImage && !env.snapshotStrategy
    requires e1.instance.imageId.Some? && e1.instance.imageId.value != ""
    requires e2.instance.bootMode == BootFromVolume && e2.instance.volumes == []
    ensures var image := e1.instance.imageId.value;
            var asWritten := GroupRun([(id1, e1), (id2, e2)], env, true, 2);
            asWritten.error.None? && image in asWritten.grouping.images &&
            asWritten.grouping.images[image].instances == Some([e1, e2]) &&
            id2 !in asWritten.grouping.ignored
    ensures GroupRun([(id1, e1), (id2, e2)], env, false, 2).error == Some(UnboundLocalError("image_id"))
  {
    var info := [(id1, e1), (id2, e2)];
    var image := e1.instance.imageId.value;
    assert info[0] == (id1, e1) && info[1] == (id2, e2);
    assert GroupRun(info, env, true, 0) == RunState(Grouping(map[], map[]), Unbound, None);
    var added := AddInstance(Grouping(map[], map[]), id1, e1, e1.instance.imageId, env.readImages(image));
    assert added.Ok? && added.value.images[image].instances == Some([e1]);
    var first := GroupRun(info, env, true, 1);
    assert first == RunState(added.value, Bound(e1.instance.imageId), None);
    assert ImageIdAsWritten(e2, Bound(e1.instance.imageId), env) == Ok(e1.instance.imageId);
    var appended := AddInstance(added.value, id2, e2, e1.instance.imageId, env.readImages(image));
    assert image in added.value.images;
    assert appended.Ok? && appended.value.images[image].instances == Some([e1] + [e2]);
    assert [e1] + [e2] == [e1, e2];
    assert GroupRun(info, env, true, 2) == RunState(appended.value, Bound(e1.instance.imageId), None);
    assert GroupRun(info, env, false, 1).error.None?;
  }

  /** An info whose first instance boots from a volume without having
      volumes fails with UnboundLocalError, as written and as intended. */
  lemma UnboundImageIdOnFirstInstance(info: Instances, env: Env)
    requires info != [] && info[0].1.instance.bootMode == BootFromVolume && info[0].1.instance.volumes == []
    ensures GroupRun(info, env, true, 1).error == Some(UnboundLocalError("image_id"))
    ensures GroupRun(info, env, false, 1).error == Some(UnboundLocalError("image_id"))
  {
  }

  /** As written, when the read for the first instance's image also returns
      the second instance's (distinct) image, as a read listing every active
      image does, the second instance finds an entry without an instance
      list and raises KeyError('instance'); merging only the requested
      record, each image gets its own instance. */
  lemma SecondActiveImageRaises(id1: string, e1: InstanceEntry, id2: string, e2: InstanceEntry, env: Env)
    requires e1.instance.bootMode == BootFromImage && e2.instance.bootMode == BootFromImage && !env.snapshotStrategy
    requires Present(e1.instance.imageId) && Present(e2.instance.imageId)
    requires e1.instance.imageId != e2.instance.imageId
    requires e2.instance.imageId.value in env.readImages(e1.instance.imageId.value)
    ensures GroupRun([(id1, e1), (id2, e2)], env, true, 2).error == Some(KeyError("instance"))
    ensures var intended := GroupRun([(id1, e1), (id2, e2)], env, false, 2);
            && intended.error.None?
            && intended.grouping.images.Keys == {e1.instance.imageId.value, e2.instance.imageId.value}
            && intended.grouping.images[e1.instance.imageId.value].instances == Some([e1])
            && intended.grouping.images[e2.instance.imageId.value].instances == Some([e2])
  {
    var info := [(id1, e1), (id2, e2)];
    var x, y := e1.instance.imageId.value, e2.instance.imageId.value;
    assert info[0] == (id1, e1) && info[1] == (id2, e2);
    assert GroupRun(info, env, true, 0) == RunState(Grouping(map[], map[]), Unbound, None);
    var added := AddInstance(Grouping(map[], map[]), id1, e1, e1.instance.imageId, env.readImages(x));
    assert added.Ok? && y in added.value.images && added.value.images[y].instances.None?;
    assert GroupRun(info, env, true, 1) == RunState(added.value, Bound(e1.instance.imageId), None);
    var only := Only(env.readImages(x), x);
    var intended := AddInstance(Grouping(map[], map[]), id1, e1, e1.instance.imageId, only);
    assert intended.Ok? && intended.value.images.Keys == {x};
    assert GroupRun(info, env, false, 1) == RunState(intended.value, Bound(e1.instance.imageId), None);
    var second := AddInstance(intended.value, id2, e2, e2.instance.imageId, Only(env.readImages(y), y));
    assert second.Ok? && second.value.images.Keys == {x, y};
    assert GroupRun(info, env, false, 2) == RunState(second.value, Bound(e2.instance.imageId), None);
  }

  /** The action's result: `{target_output: {'images': images},
      'compute_ignored_images': ignored}`. */
  datatype Output = Output(targetOutput: string, images: map<string, ImageGroup>, ignored: map<string, InstanceEntry>)

  class ConvertComputeToImage {
    const targetOutput: string
    const env: Env

    /** `target_output` defaults to "images_info"; `strategy` is the
        configured `instance_migration_strategy`. */
    constructor (targetOutput: string, strategy: string, storage: string -> map<string, VolumeBody>,
                 readImages: string -> map<string, ImageInfo>)
      ensures this.targetOutput == targetOutput
      ensures env == Env(strategy == SNAPSHOT, storage, readImages)
    {
      this.targetOutput := targetOutput;
      env := Env(strategy == SNAPSHOT, storage, readImages);
    }

    /** One iteration's choice of `image_id`, as written: a
        boot-from-volume instance with volumes reads it from its boot
        volume, one without volumes keeps the binding `last` left by the
        previous iteration (UnboundLocalError when there is none), any other
        instance takes its `snapshot_id` under the snapshot strategy and its
        `image_id` otherwise. */
    method Resolve(entry: InstanceEntry, last: Binding) returns (r: Result<Option<string>>)
      ensures r == ImageIdAsWritten(entry, last, env)
    {
      var imageId := last;
      if entry.instance.bootMode == BootFromVolume {
        if entry.instance.volumes != [] {
          var fromVolume := ImageIdFromVolume(entry.instance.bootVolume, env.storage);
          if fromVolume.Err? {
            return Err(fromVolume.error);
          }
          imageId := Bound(fromVolume.value);
        }
      } else if env.snapshotStrategy {
        if entry.snapshotId.None? {
          return Err(KeyError("snapshot_id"));
        }
        imageId := Bound(entry.snapshotId);
      } else {
        imageId := Bound(entry.instance.imageId);
      }
      if imageId.Unbound? {
        return Err(UnboundLocalError("image_id"));
      }
      r := Ok(imageId.imageId);
    }

    /** One iteration's bookkeeping, as written: a present image id reads
        every image the read returns and merges them into `images_body`;
        any other instance is ignored. */
    method Place(g: Grouping, instanceId: string, entry: InstanceEntry, id: Option<string>)
        returns (r: Result<Grouping>)
      ensures r == AddInstance(g, instanceId, entry, id, if Present(id) then env.readImages(id.value) else map[])
    {
      if !Present(id) {
        return Ok(g.(ignored := g.ignored[instanceId := entry]));
      }
      var imagesBody := g.images;
      var img := env.readImages(id.value);
      if id.value in imagesBody {
        var group := imagesBody[id.value];
        if group.instances.None? {
          return Err(KeyError("instance"));
        }
        imagesBody := imagesBody[id.value := group.(instances := Some(group.instances.value + [entry]))];
      } else {
        imagesBody := imagesBody[id.value := ImageGroup(None, Some([entry]))];
        if img != map[] {
          imagesBody := imagesBody + Records(img);
          imagesBody := imagesBody[id.value := imagesBody[id.value].(instances := Some([entry]))];
        }
      }
      r := Ok(g.(images := imagesBody));
    }

    /** `run`, as written: group a copy of the info's instances by image in
        dict order, with `image_id` carried over between iterations and
        every image the read returns merged; the first exception escapes. */
    method Run(info: Instances) returns (r: Result<Output>)
      ensures var run := GroupRun(info, env, true, |info|);
              r == if run.error.None? then Ok(Output(targetOutput, run.grouping.images, run.grouping.ignored))
                   else Err(run.error.value)
    {
      var imagesBody: map<string, ImageGroup> := map[];
      var ignored: map<string, InstanceEntry> := map[];
      var imageId := Unbound;
      var i := 0;
      while i < |info|
        invariant 0 <= i <= |info|
        invariant GroupRun(info, env, true, i) == RunState(Grouping(imagesBody, ignored), imageId, None)
      {
        var (instanceId, instance) := info[i];
        var resolved := Resolve(instance, imageId);
        if resolved.Err? {
          GroupRunStopped(info, env, true, i + 1, |info|);
          return Err(resolved.error);
        }
        imageId := Bound(resolved.value);
        var grouped := Place(Grouping(imagesBody, ignored), instanceId, instance, imageId.imageId);
        if grouped.Err? {
          GroupRunStopped(info, env, true, i + 1, |info|);
          return Err(grouped.error);
        }
        imagesBody, ignored := grouped.value.images, grouped.value.ignored;
        i := i + 1;
      }
      r := Ok(Output(targetOutput, imagesBody, ignored));
    }
  }
}
