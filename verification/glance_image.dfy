/** The decision logic of `GlanceImage` (cloudferrylib/os/image/glance_image.py):
    the endpoint the client is built for, image lookups in the image listing,
    the image info read for migration, image members, and the strings the
    class sends to the database and reads back from the command line. */
module GlanceImage {
  import opened Common

  const ACTIVE: string := "active"
  const SNAPSHOT: string := "snapshot"
  const IMAGE_TYPE: string := "image_type"
  /** `get_client` always builds a version 1 client. */
  const CLIENT_VERSION: int := 1

  // ---------------------------------------------------------------------
  // Endpoint parsing

  predicate IsDigit(c: char) {
    '0' <= c <= '9'
  }

  /** A `/v<digit>` version marker starts at position `i` of `s`. */
  predicate MarkerAt(s: string, i: nat) {
    i + 3 <= |s| && s[i] == '/' && s[i + 1] == 'v' && IsDigit(s[i + 2])
  }

  /** The start of the last version marker lying within the first `n`
      characters of `s`. */
  function LastMarker(s: string, n: nat): (r: Option<nat>)
    requires n <= |s|
    ensures r.Some? ==> r.value + 3 <= n && MarkerAt(s, r.value)
    ensures r.Some? ==> forall j: nat :: r.value < j && j + 3 <= n ==> !MarkerAt(s, j)
    ensures r.None? ==> forall j: nat :: j + 3 <= n ==> !MarkerAt(s, j)
  {
    if n < 3 then None
    else if MarkerAt(s, n - 3) then Some(n - 3)
    else LastMarker(s, n - 1)
  }

  datatype ClientParams = ClientParams(version: int, endpoint: string)

  /** What `get_client` builds its client with: the regular expression
      `(.*)/v(\d)` matches greedily, so an endpoint holding a version marker
      is cut before its last one; the version is 1 either way. */
  function GlanceClientParams(endpoint: string): (r: ClientParams)
    ensures r.version == CLIENT_VERSION
    ensures r.endpoint <= endpoint
    ensures (exists i :: MarkerAt(endpoint, i)) ==>
              MarkerAt(endpoint, |r.endpoint|) && forall j :: |r.endpoint| < j ==> !MarkerAt(endpoint, j)
    ensures (forall i :: !MarkerAt(endpoint, i)) ==> r.endpoint == endpoint
  {
    match LastMarker(endpoint, |endpoint|)
    case Some(i) => ClientParams(CLIENT_VERSION, endpoint[..i])
    case None => ClientParams(CLIENT_VERSION, endpoint)
  }

  /** An endpoint ending in a version marker and a tail without one is
      given back without them: `http://host:9292/v1` gives `http://host:9292`,
      and `http://host/v2/v1/` gives `http://host/v2`. */
  lemma EndpointDropsVersion(base: string, d: char, rest: string)
    requires IsDigit(d)
    requires forall j :: !MarkerAt(rest, j)
    ensures GlanceClientParams(base + ['/', 'v', d] + rest).endpoint == base
  {
    var s := base + ['/', 'v', d] + rest;
    var b := |base|;
    assert MarkerAt(s, b);
    forall j | b < j
      ensures !MarkerAt(s, j)
    {
      if b + 3 <= j && j + 3 <= |s| {
        var k := j - (b + 3);
        assert s[j] == rest[k] && s[j + 1] == rest[k + 1] && s[j + 2] == rest[k + 2];
        assert !MarkerAt(rest, k);
      }
    }
    var r := GlanceClientParams(s);
    assert |r.endpoint| == b;
    assert s[..b] == base;
  }

  // ---------------------------------------------------------------------
  // Images

  /** A glance image as the listing returns it; `properties` is None when
      the image has no such field. */
  datatype GlanceImg = GlanceImg(id: string, name: string, status: string, checksum: Option<string>,
                                 properties: Option<map<string, Value>>)

  /** `is_snapshot`: the image's properties, or an empty mapping, say that it
      is a snapshot. */
  function IsSnapshot(img: GlanceImg): (r: bool)
    ensures r <==> img.properties.Some? && IMAGE_TYPE in img.properties.value &&
                   img.properties.value[IMAGE_TYPE] == VStr(SNAPSHOT)
  {
    var properties := if img.properties.Some? then img.properties.value else map[];
    IMAGE_TYPE in properties && properties[IMAGE_TYPE] == VStr(SNAPSHOT)
  }

  /** `get_image` looks an image up by name or by id. */
  predicate Names(img: GlanceImg, im: string) {
    im == img.name || im == img.id
  }

  /** The ids of the listed images with checksum `checksum`, in listing
      order. */
  function IdsWithChecksum(images: seq<GlanceImg>, checksum: Option<string>): seq<string> {
    if images == [] then []
    else
      var last := images[|images| - 1];
      IdsWithChecksum(images[..|images| - 1], checksum) + (if last.checksum == checksum then [last.id] else [])
  }

  /** Listing order is kept: the ids of a listing are those of its parts, in
      turn. */
  lemma {:induction false} IdsWithChecksumAppend(a: seq<GlanceImg>, b: seq<GlanceImg>, checksum: Option<string>)
    ensures IdsWithChecksum(a + b, checksum) == IdsWithChecksum(a, checksum) + IdsWithChecksum(b, checksum)
  {
    if b == [] {
      assert a + b == a;
    } else {
      assert (a + b)[..|a + b| - 1] == a + b[..|b| - 1];
      IdsWithChecksumAppend(a, b[..|b| - 1], checksum);
    }
  }

  /** An id is listed exactly when an image with that id has the checksum. */
  lemma {:induction false} IdsWithChecksumMembers(images: seq<GlanceImg>, checksum: Option<string>, x: string)
    ensures x in IdsWithChecksum(images, checksum) <==>
              exists k :: 0 <= k < |images| && images[k].id == x && images[k].checksum == checksum
  {
    if images != [] {
      IdsWithChecksumMembers(images[..|images| - 1], checksum, x);
    }
  }

  /** The image location the `img_loc` loop settles on: it takes rows while
      it holds None, so the first row holding a location. */
  function FirstLocation(rows: seq<Option<string>>): Option<string> {
    if rows == [] then None
    else if rows[0].Some? then rows[0]
    else FirstLocation(rows[1..])
  }

  /** The location is the first row's when that row holds one, and in any
      case the first present one; None when no row holds one. */
  lemma {:induction false} FirstLocationIsFirst(rows: seq<Option<string>>)
    ensures rows != [] && rows[0].Some? ==> FirstLocation(rows) == rows[0]
    ensures FirstLocation(rows).None? <==> forall j :: 0 <= j < |rows| ==> rows[j].None?
    ensures FirstLocation(rows).Some? ==>
              exists k :: 0 <= k < |rows| && rows[k] == FirstLocation(rows) && forall j :: 0 <= j < k ==> rows[j].None?
  {
    if rows != [] && rows[0].None? {
      FirstLocationIsFirst(rows[1..]);
      assert forall j :: 1 <= j < |rows| ==> rows[j] == rows[1..][j - 1];
      if FirstLocation(rows).Some? {
        var k :| 0 <= k < |rows[1..]| && rows[1..][k] == FirstLocation(rows) && forall j :: 0 <= j < k ==> rows[1..][j].None?;
        assert rows[k + 1] == FirstLocation(rows);
      }
    }
  }

  /** The migration info of an active image: its converted fields and its
      location. */
  datatype ImageEntry = ImageEntry(image: map<string, Value>, imgLoc: Option<string>)

  // ---------------------------------------------------------------------
  // Members

  /** An entry of `image_members.list`. */
  datatype Member = Member(memberId: string, canShare: bool)

  /** The tenant name `try_get_tenant_name_by_id` gives a member: its own, or
      the configured tenant when the identity service does not know it. */
  function MemberTenant(tenantNameById: string -> Option<string>, tenant: string, memberId: string): string {
    match tenantNameById(memberId)
    case Some(name) => name
    case None => tenant
  }

  /** The sharing of one image after its members `entries`, starting from
      `start`: each member's tenant gets its `can_share`. */
  function Shares(tenantNameById: string -> Option<string>, tenant: string, entries: seq<Member>,
                  start: map<string, bool>): map<string, bool>
  {
    if entries == [] then start
    else
      var last := entries[|entries| - 1];
      Shares(tenantNameById, tenant, entries[..|entries| - 1], start)[MemberTenant(tenantNameById, tenant, last.memberId) := last.canShare]
  }

  /** `get_members` over `images`: an image gets an entry once it has a
      member. */
  function Members(tenantNameById: string -> Option<string>, tenant: string, imageMembers: string -> seq<Member>,
                   images: seq<string>): map<string, map<string, bool>>
  {
    if images == [] then map[]
    else
      var before := Members(tenantNameById, tenant, imageMembers, images[..|images| - 1]);
      var img := images[|images| - 1];
      if imageMembers(img) == [] then before
      else before[img := Shares(tenantNameById, tenant, imageMembers(img), if img in before then before[img] else map[])]
  }

  /** An image has an entry exactly when it has members. */
  lemma {:induction false} MembersKeys(tenantNameById: string -> Option<string>, tenant: string,
                                       imageMembers: string -> seq<Member>, images: seq<string>, img: string)
    ensures img in Members(tenantNameById, tenant, imageMembers, images) <==>
              exists i :: 0 <= i < |images| && images[i] == img && imageMembers(img) != []
  {
    if images != [] {
      MembersKeys(tenantNameById, tenant, imageMembers, images[..|images| - 1], img);
    }
  }

  /** A tenant is listed exactly when one of the members belongs to it, and
      the last such member decides whether it can share. */
  lemma {:induction false} SharesLastWins(tenantNameById: string -> Option<string>, tenant: string, entries: seq<Member>,
                                          start: map<string, bool>, t: string)
    ensures t in Shares(tenantNameById, tenant, entries, start) <==>
              t in start || exists j :: 0 <= j < |entries| && MemberTenant(tenantNameById, tenant, entries[j].memberId) == t
    ensures forall j :: 0 <= j < |entries| && MemberTenant(tenantNameById, tenant, entries[j].memberId) == t &&
                        (forall k :: j < k < |entries| ==> MemberTenant(tenantNameById, tenant, entries[k].memberId) != t) ==>
              Shares(tenantNameById, tenant, entries, start)[t] == entries[j].canShare
  {
    if entries != [] {
      SharesLastWins(tenantNameById, tenant, entries[..|entries| - 1], start, t);
    }
  }

  /** For an image listed once, its entry is built from its own members
      alone. */
  lemma {:induction false} MembersOfImage(tenantNameById: string -> Option<string>, tenant: string,
                                          imageMembers: string -> seq<Member>, images: seq<string>, i: nat)
    requires i < |images| && imageMembers(images[i]) != []
    requires forall k :: 0 <= k < |images| && k != i ==> images[k] != images[i]
    ensures var r := Members(tenantNameById, tenant, imageMembers, images);
            images[i] in r && r[images[i]] == Shares(tenantNameById, tenant, imageMembers(images[i]), map[])
  {
    var init := images[..|images| - 1];
    if i < |images| - 1 {
      MembersOfImage(tenantNameById, tenant, imageMembers, init, i);
    } else {
      MembersKeys(tenantNameById, tenant, imageMembers, init, images[i]);
    }
  }

  // ---------------------------------------------------------------------
  // Strings for the database and from the command line

  /** The quoted form `delete_fields` gives each id. */
  function Quote(id: string): string {
    [' ', '\''] + id + ['\'', ' ']
  }

  function QuoteAll(ids: seq<string>): (r: seq<string>)
    ensures |r| == |ids|
    ensures forall i :: 0 <= i < |ids| ==> r[i] == Quote(ids[i])
  {
    if ids == [] then [] else QuoteAll(ids[..|ids| - 1]) + [Quote(ids[|ids| - 1])]
  }

  /** The part of the UPDATE before the id list. */
  function UpdatePrefix(field: string): string {
    "UPDATE images SET " + field + "=NULL where id in ("
  }

  /** `delete_fields`: no command for no ids, otherwise the one UPDATE that
      sets `field` to NULL for the quoted, comma-joined ids. */
  function DeleteFieldsCommand(field: string, ids: seq<string>): (r: Option<string>)
    ensures r.None? <==> ids == []
    ensures r.Some? ==> UpdatePrefix(field) <= r.value && r.value[|r.value| - 1] == ')'
  {
    if ids == [] then None
    else Some(UpdatePrefix(field) + Join(QuoteAll(ids), ',') + ")")
  }

  /** The id list of the command splits back into the quoted ids, as long
      as no id holds a comma. */
  lemma DeleteFieldsIdList(field: string, ids: seq<string>)
    requires ids != []
    requires forall i :: 0 <= i < |ids| ==> ',' !in ids[i]
    ensures var c := DeleteFieldsCommand(field, ids).value;
            Split(c[|UpdatePrefix(field)|..|c| - 1], ',') == QuoteAll(ids)
  {
    var quoted := QuoteAll(ids);
    forall i | 0 <= i < |quoted|
      ensures ',' !in quoted[i]
    {
      assert quoted[i] == [' ', '\''] + ids[i] + ['\'', ' '];
    }
    SplitJoin(quoted, ',');
    var c := DeleteFieldsCommand(field, ids).value;
    var p := UpdatePrefix(field);
    var list := Join(quoted, ',');
    assert c == p + list + ")";
    assert c[|p|..|c| - 1] == list;
  }

  /** The id `glance_img_create` reads from the command's output: its third
      `|`-separated field without spaces; IndexError when there is none. */
  function ImageIdFromOutput(out: string): (r: Result<string>)
    ensures r.Err? <==> |Split(out, '|')| < 3
    ensures r.Err? ==> r.error == IndexError
    ensures r.Ok? ==> ' ' !in r.value && '|' !in r.value
  {
    var fields := Split(out, '|');
    if |fields| < 3 then Err(IndexError) else Ok(RemoveChar(fields[2], ' '))
  }

  lemma {:induction false} RemoveCharConcat(a: string, b: string, ch: char)
    ensures RemoveChar(a + b, ch) == RemoveChar(a, ch) + RemoveChar(b, ch)
  {
    if a != [] {
      assert (a + b)[1..] == a[1..] + b;
      RemoveCharConcat(a[1..], b, ch);
    } else {
      assert a + b == b;
    }
  }

  lemma {:induction false} RemoveCharAbsent(s: string, ch: char)
    requires ch !in s
    ensures RemoveChar(s, ch) == s
  {
    if s != [] {
      RemoveCharAbsent(s[1..], ch);
    }
  }

  /** An id padded with a space on each side, as a table cell holds it. */
  function Pad(id: string): string {
    [' '] + id + [' ']
  }

  /** Dropping the spaces from a padded id gives the id. */
  lemma RemovePadding(id: string)
    requires ' ' !in id
    ensures RemoveChar(Pad(id), ' ') == id
  {
    assert Pad(id) == [' '] + (id + [' ']);
    RemoveCharConcat([' '], id + [' '], ' ');
    RemoveCharConcat(id, [' '], ' ');
    RemoveCharAbsent(id, ' ');
  }

  /** Output whose `|`-separated fields hold a padded id in third place
      gives that id back. */
  lemma ImageIdFromTable(fields: seq<string>, id: string)
    requires |fields| >= 3 && fields[2] == Pad(id) && ' ' !in id
    requires forall i :: 0 <= i < |fields| ==> '|' !in fields[i]
    ensures ImageIdFromOutput(Join(fields, '|')) == Ok(id)
  {
    RemovePadding(id);
    SplitJoin(fields, '|');
  }

  class GlanceImage {
    const tenant: string                                  // config.cloud.tenant
    const tenantNameById: string -> Option<string>        // try_get_tenant_name_by_id, None for an unknown tenant
    const convert: GlanceImg -> map<string, Value>        // convert(): the image's create parameters and owner
    const imageLocations: string -> seq<Option<string>>   // the image_locations values of an image, one per row
    const imageMembers: string -> seq<Member>             // image_members.list(image=...)

    constructor (tenant: string, tenantNameById: string -> Option<string>, convert: GlanceImg -> map<string, Value>,
                 imageLocations: string -> seq<Option<string>>, imageMembers: string -> seq<Member>)
      ensures this.tenant == tenant && this.tenantNameById == tenantNameById && this.convert == convert
      ensures this.imageLocations == imageLocations && this.imageMembers == imageMembers
    {
      this.tenant := tenant;
      this.tenantNameById := tenantNameById;
      this.convert := convert;
      this.imageLocations := imageLocations;
      this.imageMembers := imageMembers;
    }

    /** `get_image`: the first listed image named `im` or with id `im`, or
        None. */
    static method GetImage(images: seq<GlanceImg>, im: string) returns (r: Option<GlanceImg>)
      ensures r.None? <==> forall k :: 0 <= k < |images| ==> !Names(images[k], im)
      ensures r.Some? ==> exists k :: 0 <= k < |images| && images[k] == r.value && Names(images[k], im) &&
                                      forall j :: 0 <= j < k ==> !Names(images[j], im)
    {
      var k := 0;
      while k < |images|
        invariant 0 <= k <= |images|
        invariant forall j :: 0 <= j < k ==> !Names(images[j], im)
      {
        if Names(images[k], im) {
          return Some(images[k]);
        }
        k := k + 1;
      }
      return None;
    }

    /** `get_img_id_list_by_checksum`. */
    static method ImageIdsByChecksum(images: seq<GlanceImg>, checksum: Option<string>) returns (ids: seq<string>)
      ensures ids == IdsWithChecksum(images, checksum)
    {
      ids := [];
      var k := 0;
      while k < |images|
        invariant 0 <= k <= |images|
        invariant ids == IdsWithChecksum(images[..k], checksum)
      {
        assert images[..k + 1][..k] == images[..k];
        if images[k].checksum == checksum {
          ids := ids + [images[k].id];
        }
        k := k + 1;
      }
      assert images[..k] == images;
    }

    /** The `img_loc` loop of `make_image_info` over the location rows. */
    static method ImageLocation(rows: seq<Option<string>>) returns (loc: Option<string>)
      ensures loc == FirstLocation(rows)
    {
      loc := None;
      var k := 0;
      while k < |rows|
        invariant 0 <= k <= |rows|
        invariant loc.None? ==> FirstLocation(rows[k..]) == FirstLocation(rows)
        invariant loc.Some? ==> loc == FirstLocation(rows)
      {
        if loc.Some? {
          break;
        }
        assert rows[k..][1..] == rows[k + 1..];
        loc := rows[k];
        k := k + 1;
      }
    }

    /** `make_image_info`: an active image is entered into `info` under its
        id with its converted fields and location; anything else leaves
        `info` as it was. */
    method MakeImageInfo(image: Option<GlanceImg>, info: map<string, ImageEntry>) returns (r: map<string, ImageEntry>)
      ensures image.Some? && image.value.status == ACTIVE ==>
                r == info[image.value.id := ImageEntry(convert(image.value), FirstLocation(imageLocations(image.value.id)))]
      ensures !(image.Some? && image.value.status == ACTIVE) ==> r == info
    {
      r := info;
      if image.Some? {
        if image.value.status == ACTIVE {
          var glImage := convert(image.value);
          var imgLoc := ImageLocation(imageLocations(image.value.id));
          r := r[image.value.id := ImageEntry(glImage, imgLoc)];
        }
      }
    }

    /** `get_members` over the images of `info`, in dict order. */
    method GetMembers(images: seq<string>) returns (result: map<string, map<string, bool>>)
      ensures result == Members(tenantNameById, tenant, imageMembers, images)
    {
      result := map[];
      var i := 0;
      while i < |images|
        invariant 0 <= i <= |images|
        invariant result == Members(tenantNameById, tenant, imageMembers, images[..i])
      {
        assert images[..i + 1][..i] == images[..i];
        var img := images[i];
        var entries := imageMembers(img);
        ghost var before := result;
        ghost var start := if img in before then before[img] else map[];
        var j := 0;
        while j < |entries|
          invariant 0 <= j <= |entries|
          invariant j == 0 ==> result == before
          invariant j > 0 ==> result == before[img := Shares(tenantNameById, tenant, entries[..j], start)]
        {
          assert entries[..j + 1][..j] == entries[..j];
          if img !in result {
            result := result[img := map[]];
          }
          var tenantName := MemberTenant(tenantNameById, tenant, entries[j].memberId);
          result := result[img := result[img][tenantName := entries[j].canShare]];
          j := j + 1;
        }
        assert entries[..j] == entries;
        i := i + 1;
      }
      assert images[..i] == images;
    }
  }
}
