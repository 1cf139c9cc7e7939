/** The decision logic of `NeutronNetwork` (cloudferrylib/os/network/neutron.py):
    matching resources between clouds by their hash, computing that hash,
    collecting a router's addresses, and choosing which networks, subnets,
    security groups, rules and floating IPs to create or delete on the
    destination. */
module Neutron {
  import opened Common

  const DEFAULT_SECGR: string := "default"
  const CIDR: string := "cidr"

  /** A resource hash: Python's `hash()` of the sorted tuple of normalised
      items, modelled by the multiset of those items, which the sorted tuple
      is determined by (hash collisions are not modelled). */
  type ResHash = multiset<Value>

  /** A neutron resource as the converters produce it: its id, its
      `res_hash`, its kind-specific fields and `meta['id']`, the id of its
      copy on the destination once created. */
  datatype Res<A> = Res(id: string, resHash: ResHash, attrs: A, metaId: Option<string>)

  // ---------------------------------------------------------------------
  // Lookups

  /** The position of the first resource with hash `h`, or `|rs|`. */
  function FirstWithHash<A>(rs: seq<Res<A>>, h: ResHash): (k: nat)
    ensures k <= |rs|
    ensures k < |rs| ==> rs[k].resHash == h
    ensures forall j :: 0 <= j < k ==> rs[j].resHash != h
  {
    if rs == [] then 0
    else if rs[0].resHash == h then 0
    else 1 + FirstWithHash(rs[1..], h)
  }

  /** `get_res_by_hash`: the first resource whose hash equals `h`, or None. */
  function GetResByHash<A>(rs: seq<Res<A>>, h: ResHash): (r: Option<Res<A>>)
    ensures r.Some? ==> r.value.resHash == h
  {
    var k := FirstWithHash(rs, h);
    if k < |rs| then Some(rs[k]) else None
  }

  /** The lookup finds a resource exactly when one has hash `h`, and then
      the first. */
  lemma GetResByHashFirst<A>(rs: seq<Res<A>>, h: ResHash)
    ensures GetResByHash(rs, h).Some? <==> exists i :: 0 <= i < |rs| && rs[i].resHash == h
    ensures GetResByHash(rs, h).Some? ==>
              exists i :: 0 <= i < |rs| && rs[i] == GetResByHash(rs, h).value && forall j :: 0 <= j < i ==> rs[j].resHash != h
  {
  }

  /** The position of the first resource with id `id`, or `|rs|`. */
  function FirstWithId<A>(rs: seq<Res<A>>, id: string): (k: nat)
    ensures k <= |rs|
    ensures k < |rs| ==> rs[k].id == id
    ensures forall j :: 0 <= j < k ==> rs[j].id != id
  {
    if rs == [] then 0
    else if rs[0].id == id then 0
    else 1 + FirstWithId(rs[1..], id)
  }

  /** `get_res_hash_by_id`: the hash of the first resource with id `id`, or
      None. */
  function GetResHashById<A>(rs: seq<Res<A>>, id: string): (r: Option<ResHash>)
  {
    var k := FirstWithId(rs, id);
    if k < |rs| then Some(rs[k].resHash) else None
  }

  /** The lookup finds a hash exactly when a resource has id `id`, and then
      the first one's. */
  lemma GetResHashByIdFirst<A>(rs: seq<Res<A>>, id: string)
    ensures GetResHashById(rs, id).Some? <==> exists i :: 0 <= i < |rs| && rs[i].id == id
    ensures GetResHashById(rs, id).Some? ==>
              exists i :: 0 <= i < |rs| && rs[i].id == id && rs[i].resHash == GetResHashById(rs, id).value &&
                          forall j :: 0 <= j < i ==> rs[j].id != id
  {
  }

  /** The resource of the other cloud matching resource `id` of this one:
      the first of `others` whose hash is the hash of `id`.  A lookup that
      finds nothing yields None, which the callers then index, raising
      TypeError. */
  function MatchById<A, B>(rs: seq<Res<A>>, id: string, others: seq<Res<B>>): (r: Result<Res<B>>)
    ensures r.Err? ==> r.error.TypeError?
  {
    match GetResHashById(rs, id)
    case None => Err(TypeError("'NoneType' object has no attribute '__getitem__'"))
    case Some(h) =>
      match GetResByHash(others, h)
      case None => Err(TypeError("'NoneType' object has no attribute '__getitem__'"))
      case Some(o) => Ok(o)
  }

  /** A match exists exactly when the first resource with id `id` has a
      counterpart with its hash, and a match is such a counterpart. */
  lemma MatchByIdFinds<A, B>(rs: seq<Res<A>>, id: string, others: seq<Res<B>>)
    ensures MatchById(rs, id, others).Ok? <==>
              exists i, j :: 0 <= i < |rs| && 0 <= j < |others| && rs[i].id == id &&
                             (forall k :: 0 <= k < i ==> rs[k].id != id) && others[j].resHash == rs[i].resHash
    ensures MatchById(rs, id, others).Ok? ==>
              exists i :: 0 <= i < |rs| && rs[i].id == id && MatchById(rs, id, others).value.resHash == rs[i].resHash &&
                          MatchById(rs, id, others).value in others
  {
    GetResHashByIdFirst(rs, id);
    if GetResHashById(rs, id).Some? {
      GetResByHashFirst(others, GetResHashById(rs, id).value);
    }
  }

  // ---------------------------------------------------------------------
  // Resource hash

  /** The final normalisation of an item: strings are lowered. */
  function Normalise(v: Value): Value {
    if v.VStr? then VStr(Lower(v.s)) else v
  }

  function NormaliseAll(items: seq<Value>): (r: seq<Value>)
    ensures |r| == |items|
    ensures forall i :: 0 <= i < |items| ==> r[i] == Normalise(items[i])
  {
    if items == [] then [] else [Normalise(items[0])] + NormaliseAll(items[1..])
  }

  /** The one-character strings of `s`, which is what iterating over a
      string gives in Python. */
  function Chars(s: string): (r: seq<Value>)
    ensures |r| == |s|
    ensures forall i :: 0 <= i < |s| ==> r[i] == VStr([s[i]])
  {
    if s == [] then [] else [VStr([s[0]])] + Chars(s[1..])
  }

  /** The hash loop's state: the resource as rewritten so far, the items
      collected and the KeyError of a missing field. */
  datatype HashState = HashState(resource: map<string, Value>, items: seq<Value>, error: Option<Error>)

  /** The items field `arg` of `resource` contributes: for a list, its
      elements, or, as the loop is written, the characters of the field's
      name; for a `cidr`, its normalised form `cidrNorm`, which also replaces
      the field; otherwise the value. */
  function HashStep(s: HashState, arg: string, cidrNorm: Value -> Value, listElements: bool): (r: HashState)
    requires s.error.None?
    ensures arg !in s.resource <==> r.error.Some?
    ensures r.error.Some? ==> r.error.value == KeyError(arg)
  {
    if arg !in s.resource then s.(error := Some(KeyError(arg)))
    else
      match s.resource[arg]
      case VList(elems) => s.(items := s.items + (if listElements then elems else Chars(arg)))
      case _ =>
        if arg == CIDR then
          var cidr := cidrNorm(s.resource[arg]);
          s.(resource := s.resource[arg := cidr], items := s.items + [cidr])
        else s.(items := s.items + [s.resource[arg]])
  }

  /** The hash loop after the first `n` fields of `args`. */
  function HashItems(resource: map<string, Value>, args: seq<string>, cidrNorm: Value -> Value,
                     listElements: bool, n: nat): HashState
    requires n <= |args|
  {
    if n == 0 then HashState(resource, [], None)
    else
      var before := HashItems(resource, args, cidrNorm, listElements, n - 1);
      if before.error.Some? then before else HashStep(before, args[n - 1], cidrNorm, listElements)
  }

  /** A hashed resource: the resource with its `cidr` normalised, and its
      hash. */
  datatype Hashed = Hashed(resource: map<string, Value>, hash: ResHash)

  function Outcome(s: HashState): Result<Hashed> {
    if s.error.Some? then Err(s.error.value) else Ok(Hashed(s.resource, multiset(NormaliseAll(s.items))))
  }

  /** `get_resource_hash` as written: a list field contributes the
      characters of its name. */
  function ResourceHashAsWritten(resource: map<string, Value>, args: seq<string>, cidrNorm: Value -> Value): (r: Result<Hashed>)
    ensures r.Err? <==> exists i :: 0 <= i < |args| && args[i] !in resource
  {
    HashFailsOnMissingField(resource, args, cidrNorm, false, |args|);
    Outcome(HashItems(resource, args, cidrNorm, false, |args|))
  }

  /** `get_resource_hash` as intended: a list field contributes its
      elements. */
  function ResourceHash(resource: map<string, Value>, args: seq<string>, cidrNorm: Value -> Value): (r: Result<Hashed>)
    ensures r.Err? <==> exists i :: 0 <= i < |args| && args[i] !in resource
    ensures r.Err? ==> exists i :: 0 <= i < |args| && r.error == KeyError(args[i]) && args[i] !in resource
  {
    HashFailsOnMissingField(resource, args, cidrNorm, true, |args|);
    Outcome(HashItems(resource, args, cidrNorm, true, |args|))
  }

  lemma {:induction false} HashItemsStopped(resource: map<string, Value>, args: seq<string>, cidrNorm: Value -> Value,
                                            listElements: bool, n: nat, m: nat)
    requires n <= m <= |args|
    requires HashItems(resource, args, cidrNorm, listElements, n).error.Some?
    ensures HashItems(resource, args, cidrNorm, listElements, m) == HashItems(resource, args, cidrNorm, listElements, n)
    decreases m - n
  {
    if n < m {
      HashItemsStopped(resource, args, cidrNorm, listElements, n, m - 1);
      var prev := HashItems(resource, args, cidrNorm, listElements, m - 1);
      assert prev.error.Some?;
    }
  }

  /** The hash fails exactly on a field missing from the resource, with its
      KeyError; fields are never removed. */
  lemma {:induction false} HashFailsOnMissingField(resource: map<string, Value>, args: seq<string>, cidrNorm: Value -> Value,
                                                   listElements: bool, n: nat)
    requires n <= |args|
    ensures var s := HashItems(resource, args, cidrNorm, listElements, n);
            && s.resource.Keys == resource.Keys
            && (s.error.Some? <==> exists i :: 0 <= i < n && args[i] !in resource)
            && (s.error.Some? ==> exists i :: 0 <= i < n && s.error.value == KeyError(args[i]) && args[i] !in resource)
  {
    if n > 0 {
      HashFailsOnMissingField(resource, args, cidrNorm, listElements, n - 1);
    }
  }

  /** What field `arg` of the original resource contributes to the intended
      hash. */
  function Contribution(resource: map<string, Value>, arg: string, cidrNorm: Value -> Value): seq<Value> {
    if arg !in resource then []
    else
      match resource[arg]
      case VList(elems) => elems
      case _ => if arg == CIDR then [cidrNorm(resource[arg])] else [resource[arg]]
  }

  /** The intended hash as the union of what every field contributes on its
      own. */
  function Contributions(resource: map<string, Value>, args: seq<string>, cidrNorm: Value -> Value): ResHash {
    if args == [] then multiset{}
    else Contributions(resource, args[..|args| - 1], cidrNorm) +
         multiset(NormaliseAll(Contribution(resource, args[|args| - 1], cidrNorm)))
  }

  /** The resource once its `cidr` field, if hashed, has been normalised. */
  function CidrNormalised(resource: map<string, Value>, args: seq<string>, cidrNorm: Value -> Value): map<string, Value> {
    if CIDR in args && CIDR in resource && !resource[CIDR].VList? then resource[CIDR := cidrNorm(resource[CIDR])]
    else resource
  }

  lemma {:induction false} NormaliseAllConcat(a: seq<Value>, b: seq<Value>)
    ensures NormaliseAll(a + b) == NormaliseAll(a) + NormaliseAll(b)
  {
    assert |NormaliseAll(a + b)| == |NormaliseAll(a) + NormaliseAll(b)|;
    forall i | 0 <= i < |a + b|
      ensures NormaliseAll(a + b)[i] == (NormaliseAll(a) + NormaliseAll(b))[i]
    {
      if i < |a| {
        assert (a + b)[i] == a[i];
      } else {
        assert (a + b)[i] == b[i - |a|];
      }
    }
  }

  /** With every field present and `cidr` named at most once, the intended
      hash loop succeeds and rewrites nothing but a hashed `cidr`. */
  lemma {:induction false} HashItemsResource(resource: map<string, Value>, args: seq<string>, cidrNorm: Value -> Value, n: nat)
    requires n <= |args|
    requires forall i :: 0 <= i < n ==> args[i] in resource
    requires multiset(args[..n])[CIDR] <= 1
    ensures HashItems(resource, args, cidrNorm, true, n).error.None?
    ensures HashItems(resource, args, cidrNorm, true, n).resource == CidrNormalised(resource, args[..n], cidrNorm)
  {
    if n > 0 {
      assert args[..n] == args[..n - 1] + [args[n - 1]];
      HashItemsResource(resource, args, cidrNorm, n - 1);
      assert args[n - 1] == CIDR ==> CIDR !in args[..n - 1];
    }
  }

  /** What the first fields contribute, in the order the loop collects it. */
  function ContributionSeq(resource: map<string, Value>, args: seq<string>, cidrNorm: Value -> Value): seq<Value> {
    if args == [] then []
    else ContributionSeq(resource, args[..|args| - 1], cidrNorm) + Contribution(resource, args[|args| - 1], cidrNorm)
  }

  /** Under the same conditions the intended hash loop collects exactly the
      fields' own contributions, in order. */
  lemma {:induction false} HashItemsClosedForm(resource: map<string, Value>, args: seq<string>, cidrNorm: Value -> Value, n: nat)
    requires n <= |args|
    requires forall i :: 0 <= i < n ==> args[i] in resource
    requires multiset(args[..n])[CIDR] <= 1
    ensures HashItems(resource, args, cidrNorm, true, n).error.None?
    ensures HashItems(resource, args, cidrNorm, true, n).items == ContributionSeq(resource, args[..n], cidrNorm)
  {
    HashItemsResource(resource, args, cidrNorm, n);
    if n > 0 {
      assert args[..n] == args[..n - 1] + [args[n - 1]];
      HashItemsClosedForm(resource, args, cidrNorm, n - 1);
      HashItemsResource(resource, args, cidrNorm, n - 1);
      var before := HashItems(resource, args, cidrNorm, true, n - 1);
      var arg := args[n - 1];
      assert arg == CIDR ==> CIDR !in args[..n - 1];
      assert before.resource[arg] == resource[arg];
      assert args[..n][..n - 1] == args[..n - 1];
    }
  }

  /** The normalised contributions, as a multiset, are their union. */
  lemma {:induction false} NormalisedContributions(resource: map<string, Value>, args: seq<string>, cidrNorm: Value -> Value)
    ensures multiset(NormaliseAll(ContributionSeq(resource, args, cidrNorm))) == Contributions(resource, args, cidrNorm)
  {
    if args != [] {
      NormalisedContributions(resource, args[..|args| - 1], cidrNorm);
      NormaliseAllConcat(ContributionSeq(resource, args[..|args| - 1], cidrNorm),
                         Contribution(resource, args[|args| - 1], cidrNorm));
    }
  }

  lemma {:induction false} ContributionsConcat(resource: map<string, Value>, a: seq<string>, b: seq<string>, cidrNorm: Value -> Value)
    ensures Contributions(resource, a + b, cidrNorm) == Contributions(resource, a, cidrNorm) + Contributions(resource, b, cidrNorm)
  {
    if b != [] {
      var b' := b[..|b| - 1];
      assert (a + b)[..|a + b| - 1] == a + b';
      assert (a + b)[|a + b| - 1] == b[|b| - 1];
      ContributionsConcat(resource, a, b', cidrNorm);
    } else {
      assert a + b == a;
    }
  }

  /** Taking a field out of the middle takes out just its contribution. */
  lemma ContributionsRemove(resource: map<string, Value>, b1: seq<string>, x: string, b2: seq<string>, cidrNorm: Value -> Value)
    ensures Contributions(resource, b1 + [x] + b2, cidrNorm) ==
            Contributions(resource, b1 + b2, cidrNorm) + multiset(NormaliseAll(Contribution(resource, x, cidrNorm)))
  {
    ContributionsConcat(resource, b1, b2, cidrNorm);
    ContributionsConcat(resource, b1 + [x], b2, cidrNorm);
    ContributionsConcat(resource, b1, [x], cidrNorm);
    assert [x][..0] == [];
  }

  /** Two permutations of each other stay so once the last item of one is
      taken out of the other. */
  lemma PermutationWithout<T>(a: seq<T>, b: seq<T>, k: nat)
    requires a != [] && multiset(a) == multiset(b)
    requires k < |b| && b[k] == a[|a| - 1]
    ensures multiset(a[..|a| - 1]) == multiset(b[..k] + b[k + 1..])
  {
    var x := a[|a| - 1];
    assert a == a[..|a| - 1] + [x];
    assert b == b[..k] + [x] + b[k + 1..];
    assert multiset(a[..|a| - 1]) == multiset(a) - multiset{x};
    assert multiset(b[..k] + b[k + 1..]) == multiset(b) - multiset{x};
  }

  /** The union of the contributions does not depend on the order of the
      fields. */
  lemma {:induction false} ContributionsOrderFree(resource: map<string, Value>, a: seq<string>, b: seq<string>, cidrNorm: Value -> Value)
    requires multiset(a) == multiset(b)
    ensures Contributions(resource, a, cidrNorm) == Contributions(resource, b, cidrNorm)
    decreases |a|
  {
    if a != [] {
      var a' := a[..|a| - 1];
      var x := a[|a| - 1];
      assert x in multiset(b);
      var k :| 0 <= k < |b| && b[k] == x;
      var b1, b2 := b[..k], b[k + 1..];
      PermutationWithout(a, b, k);
      assert b == b1 + [x] + b2;
      ContributionsOrderFree(resource, a', b1 + b2, cidrNorm);
      ContributionsRemove(resource, b1, x, b2, cidrNorm);
    }
  }

  /** With every field present and `cidr` named at most once, the intended
      hash is the union of the normalised contributions of the fields. */
  lemma IntendedHash(resource: map<string, Value>, args: seq<string>, cidrNorm: Value -> Value)
    requires forall i :: 0 <= i < |args| ==> args[i] in resource
    requires multiset(args)[CIDR] <= 1
    ensures ResourceHash(resource, args, cidrNorm).Ok?
    ensures ResourceHash(resource, args, cidrNorm).value.hash == Contributions(resource, args, cidrNorm)
  {
    assert args[..|args|] == args;
    HashItemsClosedForm(resource, args, cidrNorm, |args|);
    NormalisedContributions(resource, args, cidrNorm);
  }

  /** Every field of a permutation of present fields is present. */
  lemma PermutedFieldsPresent(resource: map<string, Value>, a: seq<string>, b: seq<string>)
    requires forall i :: 0 <= i < |a| ==> a[i] in resource
    requires multiset(a) == multiset(b)
    ensures forall i :: 0 <= i < |b| ==> b[i] in resource
  {
    forall i | 0 <= i < |b|
      ensures b[i] in resource
    {
      assert b[i] in multiset(a);
    }
  }

  /** `get_resource_hash` does not depend on the order of the fields named. */
  lemma ResourceHashOrderFree(resource: map<string, Value>, a: seq<string>, b: seq<string>, cidrNorm: Value -> Value)
    requires forall i :: 0 <= i < |a| ==> a[i] in resource
    requires multiset(a) == multiset(b)
    requires multiset(a)[CIDR] <= 1
    ensures ResourceHash(resource, a, cidrNorm).Ok? && ResourceHash(resource, b, cidrNorm).Ok?
    ensures ResourceHash(resource, a, cidrNorm).value.hash == ResourceHash(resource, b, cidrNorm).value.hash
  {
    PermutedFieldsPresent(resource, a, b);
    ContributionsOrderFree(resource, a, b, cidrNorm);
    IntendedHash(resource, a, cidrNorm);
    IntendedHash(resource, b, cidrNorm);
  }

  /** A field value seen through the hash's normalisation: strings lowered,
      and the string elements of a list lowered. */
  function Folded(v: Value): Value {
    if v.VList? then VList(NormaliseAll(v.items)) else Normalise(v)
  }

  /** Two values that agree through the normalisation, and agree exactly
      when they are a `cidr`, contribute alike. */
  predicate AgreeForHash(r1: map<string, Value>, r2: map<string, Value>, arg: string) {
    arg in r1 && arg in r2 && Folded(r1[arg]) == Folded(r2[arg]) && (arg == CIDR ==> r1[arg] == r2[arg])
  }

  /** A field on which two resources agree for the hash contributes alike
      to both. */
  lemma ContributionCaseFree(r1: map<string, Value>, r2: map<string, Value>, arg: string, cidrNorm: Value -> Value)
    requires AgreeForHash(r1, r2, arg)
    ensures NormaliseAll(Contribution(r1, arg, cidrNorm)) == NormaliseAll(Contribution(r2, arg, cidrNorm))
  {
    if !r1[arg].VList? {
      assert Normalise(r1[arg]) == Normalise(r2[arg]);
    }
  }

  lemma {:induction false} ContributionsCaseFree(r1: map<string, Value>, r2: map<string, Value>, args: seq<string>,
                                                 cidrNorm: Value -> Value)
    requires forall i :: 0 <= i < |args| ==> AgreeForHash(r1, r2, args[i])
    ensures Contributions(r1, args, cidrNorm) == Contributions(r2, args, cidrNorm)
  {
    if args != [] {
      ContributionCaseFree(r1, r2, args[|args| - 1], cidrNorm);
      ContributionsCaseFree(r1, r2, args[..|args| - 1], cidrNorm);
    }
  }

  /** `get_resource_hash` does not depend on the case of string values: two
      resources whose hashed fields agree up to case, and on `cidr` exactly,
      hash alike. */
  lemma ResourceHashCaseFree(r1: map<string, Value>, r2: map<string, Value>, args: seq<string>, cidrNorm: Value -> Value)
    requires forall i :: 0 <= i < |args| ==> AgreeForHash(r1, r2, args[i])
    requires multiset(args)[CIDR] <= 1
    ensures ResourceHash(r1, args, cidrNorm).Ok? && ResourceHash(r2, args, cidrNorm).Ok?
    ensures ResourceHash(r1, args, cidrNorm).value.hash == ResourceHash(r2, args, cidrNorm).value.hash
  {
    ContributionsCaseFree(r1, r2, args, cidrNorm);
    IntendedHash(r1, args, cidrNorm);
    IntendedHash(r2, args, cidrNorm);
  }

  /** Hashing rewrites the resource's `cidr`, when it is hashed and not a
      list, with its normalised form, and changes nothing else. */
  lemma ResourceHashRewritesCidr(resource: map<string, Value>, args: seq<string>, cidrNorm: Value -> Value)
    requires forall i :: 0 <= i < |args| ==> args[i] in resource
    requires multiset(args)[CIDR] <= 1
    ensures ResourceHash(resource, args, cidrNorm).Ok?
    ensures CIDR in args && !resource[CIDR].VList? ==>
              ResourceHash(resource, args, cidrNorm).value.resource == resource[CIDR := cidrNorm(resource[CIDR])]
    ensures CIDR !in args || resource[CIDR].VList? ==> ResourceHash(resource, args, cidrNorm).value.resource == resource
  {
    assert args[..|args|] == args;
    HashItemsResource(resource, args, cidrNorm, |args|);
  }

  /** As written, resources that differ only in the elements of a list
      field hash alike; as intended, they hash apart whenever the elements
      differ up to case. */
  lemma ListFieldIgnoredAsWritten(key: string, p1: seq<Value>, p2: seq<Value>, cidrNorm: Value -> Value)
    ensures var r1, r2 := map[key := VList(p1)], map[key := VList(p2)];
            && ResourceHashAsWritten(r1, [key], cidrNorm).Ok? && ResourceHashAsWritten(r2, [key], cidrNorm).Ok?
            && ResourceHashAsWritten(r1, [key], cidrNorm).value.hash == ResourceHashAsWritten(r2, [key], cidrNorm).value.hash
    ensures var r1, r2 := map[key := VList(p1)], map[key := VList(p2)];
            multiset(NormaliseAll(p1)) != multiset(NormaliseAll(p2)) ==>
              ResourceHash(r1, [key], cidrNorm).value.hash != ResourceHash(r2, [key], cidrNorm).value.hash
  {
    var r1, r2 := map[key := VList(p1)], map[key := VList(p2)];
    assert HashItems(r1, [key], cidrNorm, false, 1).items == Chars(key);
    assert HashItems(r2, [key], cidrNorm, false, 1).items == Chars(key);
    assert HashItems(r1, [key], cidrNorm, true, 1).items == p1;
    assert HashItems(r2, [key], cidrNorm, true, 1).items == p2;
  }

  // ---------------------------------------------------------------------
  // External networks and routers

  /** `get_new_extnet_id`: the destination network for source network
      `srcNetId`, from `ext_net_map` when it has an entry, otherwise the
      destination network with the same hash; TypeError when either lookup
      finds nothing. */
  function GetNewExtnetId<A, B>(extNetMap: map<string, string>, srcNetId: string, srcNets: seq<Res<A>>,
                                dstNets: seq<Res<B>>): (r: Result<string>)
    ensures srcNetId in extNetMap ==> r == Ok(extNetMap[srcNetId])
    ensures r.Err? ==> r.error.TypeError?
  {
    if srcNetId in extNetMap then Ok(extNetMap[srcNetId])
    else
      var dst :- MatchById(srcNets, srcNetId, dstNets);
      Ok(dst.id)
  }

  /** An unmapped network is found through its hash: the result is a
      destination network with the hash of the source network of that id,
      and there is a result exactly when such a network exists. */
  lemma GetNewExtnetIdByHash<A, B>(extNetMap: map<string, string>, srcNetId: string, srcNets: seq<Res<A>>, dstNets: seq<Res<B>>)
    requires srcNetId !in extNetMap
    ensures GetNewExtnetId(extNetMap, srcNetId, srcNets, dstNets).Ok? <==> MatchById(srcNets, srcNetId, dstNets).Ok?
    ensures GetNewExtnetId(extNetMap, srcNetId, srcNets, dstNets).Ok? ==>
              exists i, j :: 0 <= i < |srcNets| && 0 <= j < |dstNets| && srcNets[i].id == srcNetId &&
                             dstNets[j].id == GetNewExtnetId(extNetMap, srcNetId, srcNets, dstNets).value &&
                             dstNets[j].resHash == srcNets[i].resHash
  {
    MatchByIdFinds(srcNets, srcNetId, dstNets);
    if MatchById(srcNets, srcNetId, dstNets).Ok? {
      var d := MatchById(srcNets, srcNetId, dstNets).value;
      var i :| 0 <= i < |srcNets| && srcNets[i].id == srcNetId && d.resHash == srcNets[i].resHash && d in dstNets;
      var j :| 0 <= j < |dstNets| && dstNets[j] == d;
    }
  }

  datatype FixedIp = FixedIp(ipAddress: string, subnetId: string)
  datatype Port = Port(deviceId: string, fixedIps: seq<FixedIp>)

  /** The fixed IPs of the router's ports among the first `n`, in order. */
  function RouterFixedIps(routerId: string, ports: seq<Port>, n: nat): seq<FixedIp>
    requires n <= |ports|
  {
    if n == 0 then []
    else RouterFixedIps(routerId, ports, n - 1) + (if ports[n - 1].deviceId == routerId then ports[n - 1].fixedIps else [])
  }

  lemma {:induction false} RouterFixedIpsMembers(routerId: string, ports: seq<Port>, n: nat, f: FixedIp)
    requires n <= |ports|
    ensures f in RouterFixedIps(routerId, ports, n) <==>
              exists i :: 0 <= i < n && ports[i].deviceId == routerId && f in ports[i].fixedIps
  {
    if n > 0 {
      RouterFixedIpsMembers(routerId, ports, n - 1, f);
    }
  }

  /** `ips` lists exactly the addresses of the router's ports' fixed IPs,
      and `subnet_ids` exactly their subnets, each once. */
  lemma RouterAddressesMembers(routerId: string, ports: seq<Port>, x: string)
    ensures x in Addresses(RouterFixedIps(routerId, ports, |ports|)) <==>
              exists i, f :: 0 <= i < |ports| && ports[i].deviceId == routerId && f in ports[i].fixedIps && f.ipAddress == x
    ensures x in Dedup(SubnetIds(RouterFixedIps(routerId, ports, |ports|))) <==>
              exists i, f :: 0 <= i < |ports| && ports[i].deviceId == routerId && f in ports[i].fixedIps && f.subnetId == x
    ensures var d := Dedup(SubnetIds(RouterFixedIps(routerId, ports, |ports|)));
            forall i, j :: 0 <= i < j < |d| ==> d[i] != d[j]
  {
    var fs := RouterFixedIps(routerId, ports, |ports|);
    AddressesMembers(fs, x);
    DedupMembers(SubnetIds(fs));
    forall f | f in fs
      ensures exists i :: 0 <= i < |ports| && ports[i].deviceId == routerId && f in ports[i].fixedIps
    {
      RouterFixedIpsMembers(routerId, ports, |ports|, f);
    }
    forall i, f | 0 <= i < |ports| && ports[i].deviceId == routerId && f in ports[i].fixedIps
      ensures f in fs
    {
      RouterFixedIpsMembers(routerId, ports, |ports|, f);
    }
  }

  /** The addresses of fixed IPs `fs`, in order. */
  function Addresses(fs: seq<FixedIp>): seq<string> {
    if fs == [] then [] else Addresses(fs[..|fs| - 1]) + [fs[|fs| - 1].ipAddress]
  }

  /** The subnets of fixed IPs `fs`, in order. */
  function SubnetIds(fs: seq<FixedIp>): seq<string> {
    if fs == [] then [] else SubnetIds(fs[..|fs| - 1]) + [fs[|fs| - 1].subnetId]
  }

  lemma AddressesSnoc(fs: seq<FixedIp>, f: FixedIp)
    ensures Addresses(fs + [f]) == Addresses(fs) + [f.ipAddress]
    ensures SubnetIds(fs + [f]) == SubnetIds(fs) + [f.subnetId]
  {
    assert (fs + [f])[..|fs|] == fs;
  }

  /** An address is listed exactly when one of the fixed IPs has it, and so
      is a subnet. */
  lemma {:induction false} AddressesMembers(fs: seq<FixedIp>, x: string)
    ensures x in Addresses(fs) <==> exists f :: f in fs && f.ipAddress == x
    ensures x in SubnetIds(fs) <==> exists f :: f in fs && f.subnetId == x
  {
    if fs != [] {
      var init, last := fs[..|fs| - 1], fs[|fs| - 1];
      assert fs == init + [last];
      AddressesMembers(init, x);
    }
  }

  /** The items of `xs` without repeats, each where it is first seen. */
  function Dedup(xs: seq<string>): seq<string> {
    if xs == [] then []
    else
      var d := Dedup(xs[..|xs| - 1]);
      if xs[|xs| - 1] in d then d else d + [xs[|xs| - 1]]
  }

  lemma {:induction false} DedupMembers(xs: seq<string>)
    ensures forall x :: x in Dedup(xs) <==> x in xs
    ensures forall i, j :: 0 <= i < j < |Dedup(xs)| ==> Dedup(xs)[i] != Dedup(xs)[j]
  {
    if xs != [] {
      DedupMembers(xs[..|xs| - 1]);
      assert xs == xs[..|xs| - 1] + [xs[|xs| - 1]];
    }
  }

  lemma DedupSnoc(xs: seq<string>, x: string)
    ensures Dedup(xs + [x]) == if x in Dedup(xs) then Dedup(xs) else Dedup(xs) + [x]
  {
    assert (xs + [x])[..|xs|] == xs;
  }

  /** Deduplicating a prefix gives a prefix of the whole: an item's place is
      fixed when it is first seen. */
  lemma {:induction false} DedupPrefix(xs: seq<string>, m: nat)
    requires m <= |xs|
    ensures Dedup(xs[..m]) <= Dedup(xs)
    decreases |xs| - m
  {
    if m < |xs| {
      assert xs[..|xs| - 1][..m] == xs[..m];
      DedupPrefix(xs[..|xs| - 1], m);
    } else {
      assert xs[..m] == xs;
    }
  }

  // ---------------------------------------------------------------------
  // Upload selection

  /** What the action reads from the configuration and the identity
      service: `ext_net_map`, `migrate_extnets`, `use_extnet_spec_opts`, and
      `get_tenant_id_by_name`. */
  datatype NeutronConfig = NeutronConfig(extNetMap: map<string, string>, migrateExtnets: bool,
                                         useExtnetSpecOpts: bool, tenantIdByName: string -> string)

  /** An external network or subnet is left alone when external networks are
      not migrated or the network is mapped by `ext_net_map`. */
  predicate SkipsExternal(cfg: NeutronConfig, external: bool, networkId: string) {
    external && (!cfg.migrateExtnets || networkId in cfg.extNetMap)
  }

  /** The tenant a loop works for after looking at a record of `tenantName`:
      the given one, or the named one while none is given. */
  function Tenant(cfg: NeutronConfig, tenantId: string, tenantName: string): (r: string)
    ensures tenantId != "" ==> r == tenantId
  {
    if tenantId == "" then cfg.tenantIdByName(tenantName) else tenantId
  }

  /** The hashes of resources listed on the destination. */
  function Hashes<A>(rs: seq<Res<A>>): (r: seq<ResHash>)
    ensures |r| == |rs|
    ensures forall i :: 0 <= i < |rs| ==> r[i] == rs[i].resHash
  {
    if rs == [] then [] else Hashes(rs[..|rs| - 1]) + [rs[|rs| - 1].resHash]
  }

  datatype NetAttrs = NetAttrs(name: string, tenantName: string, adminStateUp: Value, shared: Value, external: bool,
                               physicalNetwork: Value, networkType: Value, segmentationId: Value)
  type Network = Res<NetAttrs>

  datatype Provider = Provider(physicalNetwork: Value, networkType: Value, segmentationId: Option<Value>)
  datatype NetworkRequest = NetworkRequest(name: string, adminStateUp: Value, tenantId: string, shared: Value,
                                           external: bool, provider: Option<Provider>)

  /** The `create_network` body for `net` in tenant `tenantId`: an external
      network is marked so, and carries the provider options when they are
      migrated, the segmentation id only for a VLAN. */
  function NetworkRequestFor(cfg: NeutronConfig, net: Network, tenantId: string): (q: NetworkRequest)
    ensures q.name == net.attrs.name && q.tenantId == tenantId && q.external == net.attrs.external
    ensures q.provider.Some? <==> net.attrs.external && cfg.useExtnetSpecOpts
    ensures q.provider.Some? ==> (q.provider.value.segmentationId.Some? <==> net.attrs.networkType == VStr("vlan"))
  {
    var provider :=
      if net.attrs.external && cfg.useExtnetSpecOpts then
        Some(Provider(net.attrs.physicalNetwork, net.attrs.networkType,
                      if net.attrs.networkType == VStr("vlan") then Some(net.attrs.segmentationId) else None))
      else None;
    NetworkRequest(net.attrs.name, net.attrs.adminStateUp, tenantId, net.attrs.shared, net.attrs.external, provider)
  }

  /** A network is created when it is not a skipped external one and its
      hash is not on the destination. */
  predicate CreatesNetwork(cfg: NeutronConfig, net: Network, existing: seq<ResHash>) {
    !SkipsExternal(cfg, net.attrs.external, net.id) && net.resHash !in existing
  }

  /** An upload loop's effect so far: the records with `meta['id']` set on
      those created, the create requests sent, the tenant it works for, and
      the exception that stopped it. */
  datatype Upload<R, Q> = Upload(records: seq<R>, requests: seq<Q>, tenantId: string, error: Option<Error>)

  /** `upload_networks` after the first `n` networks; the k-th create call
      returns `newId(k)`.  The tenant is looked up before the external check. */
  function NetworksRun(cfg: NeutronConfig, networks: seq<Network>, existing: seq<ResHash>, tenantId: string,
                       newId: nat -> string, n: nat): (r: Upload<Network, NetworkRequest>)
    requires n <= |networks|
    ensures |r.records| == n && r.error.None?
  {
    if n == 0 then Upload([], [], tenantId, None)
    else
      var before := NetworksRun(cfg, networks, existing, tenantId, newId, n - 1);
      var net := networks[n - 1];
      var tenant := Tenant(cfg, before.tenantId, net.attrs.tenantName);
      if CreatesNetwork(cfg, net, existing) then
        Upload(before.records + [net.(metaId := Some(newId(|before.requests|)))],
               before.requests + [NetworkRequestFor(cfg, net, tenant)], tenant, None)
      else Upload(before.records + [net], before.requests, tenant, None)
  }

  /** Exactly the networks the rule selects are created, each with the id its
      create call returned and the request built for it; the others are
      left as they were. */
  lemma {:induction false} NetworksRunAt(cfg: NeutronConfig, networks: seq<Network>, existing: seq<ResHash>, tenantId: string,
                                         newId: nat -> string, n: nat, i: nat)
    requires i < n <= |networks|
    ensures var run, before := NetworksRun(cfg, networks, existing, tenantId, newId, n),
                               NetworksRun(cfg, networks, existing, tenantId, newId, i);
            var tenant := Tenant(cfg, before.tenantId, networks[i].attrs.tenantName);
            && (CreatesNetwork(cfg, networks[i], existing) ==>
                  && run.records[i] == networks[i].(metaId := Some(newId(|before.requests|)))
                  && |before.requests| < |run.requests|
                  && run.requests[|before.requests|] == NetworkRequestFor(cfg, networks[i], tenant))
            && (!CreatesNetwork(cfg, networks[i], existing) ==> run.records[i] == networks[i])
  {
    if i < n - 1 {
      NetworksRunAt(cfg, networks, existing, tenantId, newId, n - 1, i);
    }
  }

  /** Without a given tenant, every network is created in the tenant of the
      first network, as long as that one resolves. */
  lemma {:induction false} NetworksRunTenant(cfg: NeutronConfig, networks: seq<Network>, existing: seq<ResHash>, tenantId: string,
                                             newId: nat -> string, n: nat)
    requires 0 < n <= |networks|
    requires Tenant(cfg, tenantId, networks[0].attrs.tenantName) != ""
    ensures NetworksRun(cfg, networks, existing, tenantId, newId, n).tenantId == Tenant(cfg, tenantId, networks[0].attrs.tenantName)
    ensures forall k :: 0 <= k < |NetworksRun(cfg, networks, existing, tenantId, newId, n).requests| ==>
              NetworksRun(cfg, networks, existing, tenantId, newId, n).requests[k].tenantId ==
              Tenant(cfg, tenantId, networks[0].attrs.tenantName)
  {
    if n > 1 {
      NetworksRunTenant(cfg, networks, existing, tenantId, newId, n - 1);
    }
  }

  datatype SubnetAttrs = SubnetAttrs(name: string, tenantName: string, enableDhcp: Value, dnsNameservers: Value,
                                     allocationPools: Value, gatewayIp: Value, ipVersion: Value, cidr: Value,
                                     external: bool, networkId: string)
  type Subnet = Res<SubnetAttrs>

  datatype SubnetRequest = SubnetRequest(name: string, networkId: string, tenantId: string, enableDhcp: Value,
                                         dnsNameservers: Value, allocationPools: Value, gatewayIp: Value,
                                         ipVersion: Value, cidr: Value)

  /** The `create_subnet` body: the subnet's fields on destination network
      `networkId`, in tenant `tenantId`. */
  function SubnetRequestFor(snet: Subnet, networkId: string, tenantId: string): SubnetRequest {
    SubnetRequest(snet.attrs.name, networkId, tenantId, snet.attrs.enableDhcp, snet.attrs.dnsNameservers,
                  snet.attrs.allocationPools, snet.attrs.gatewayIp, snet.attrs.ipVersion, snet.attrs.cidr)
  }

  /** A subnet that is not a skipped external one is created when its hash
      is not on the destination. */
  predicate CreatesSubnet(cfg: NeutronConfig, snet: Subnet, existing: seq<ResHash>) {
    !SkipsExternal(cfg, snet.attrs.external, snet.attrs.networkId) && snet.resHash !in existing
  }

  /** `upload_subnets` after the first `n` subnets.  A subnet that is not
      skipped needs its network on the destination, found through the
      source network's hash, even when the subnet itself exists. */
  function SubnetsRun(cfg: NeutronConfig, networks: seq<Network>, dstNets: seq<Network>, existing: seq<ResHash>,
                      subnets: seq<Subnet>, tenantId: string, newId: nat -> string, n: nat): (r: Upload<Subnet, SubnetRequest>)
    requires n <= |subnets|
    ensures r.error.None? ==> |r.records| == n
    ensures r.error.Some? ==> r.error.value.TypeError?
  {
    if n == 0 then Upload([], [], tenantId, None)
    else
      var before := SubnetsRun(cfg, networks, dstNets, existing, subnets, tenantId, newId, n - 1);
      if before.error.Some? then before
      else SubnetStep(cfg, networks, dstNets, existing, before, subnets[n - 1], newId)
  }

  function SubnetStep(cfg: NeutronConfig, networks: seq<Network>, dstNets: seq<Network>, existing: seq<ResHash>,
                      before: Upload<Subnet, SubnetRequest>, snet: Subnet, newId: nat -> string): (r: Upload<Subnet, SubnetRequest>)
    requires before.error.None?
    ensures r.error.None? ==> |r.records| == |before.records| + 1
    ensures r.error.Some? ==> r.error.value.TypeError?
  {
    if SkipsExternal(cfg, snet.attrs.external, snet.attrs.networkId) then before.(records := before.records + [snet])
    else
      var tenant := Tenant(cfg, before.tenantId, snet.attrs.tenantName);
      match MatchById(networks, snet.attrs.networkId, dstNets)
      case Err(e) => before.(tenantId := tenant, error := Some(e))
      case Ok(net) =>
        if snet.resHash !in existing then
          Upload(before.records + [snet.(metaId := Some(newId(|before.requests|)))],
                 before.requests + [SubnetRequestFor(snet, net.id, tenant)], tenant, None)
        else Upload(before.records + [snet], before.requests, tenant, None)
  }

  lemma {:induction false} SubnetsRunStopped(cfg: NeutronConfig, networks: seq<Network>, dstNets: seq<Network>, existing: seq<ResHash>,
                                             subnets: seq<Subnet>, tenantId: string, newId: nat -> string, n: nat, m: nat)
    requires n <= m <= |subnets|
    requires SubnetsRun(cfg, networks, dstNets, existing, subnets, tenantId, newId, n).error.Some?
    ensures SubnetsRun(cfg, networks, dstNets, existing, subnets, tenantId, newId, m) ==
            SubnetsRun(cfg, networks, dstNets, existing, subnets, tenantId, newId, n)
    decreases m - n
  {
    if n < m {
      SubnetsRunStopped(cfg, networks, dstNets, existing, subnets, tenantId, newId, n, m - 1);
      var prev := SubnetsRun(cfg, networks, dstNets, existing, subnets, tenantId, newId, m - 1);
      assert prev.error.Some?;
    }
  }

  /** The upload fails exactly when some subnet that is not skipped has no
      matching network on the destination. */
  lemma {:induction false} SubnetsRunFails(cfg: NeutronConfig, networks: seq<Network>, dstNets: seq<Network>, existing: seq<ResHash>,
                                           subnets: seq<Subnet>, tenantId: string, newId: nat -> string, n: nat)
    requires n <= |subnets|
    ensures SubnetsRun(cfg, networks, dstNets, existing, subnets, tenantId, newId, n).error.None? <==>
            forall i :: 0 <= i < n && !SkipsExternal(cfg, subnets[i].attrs.external, subnets[i].attrs.networkId) ==>
                          MatchById(networks, subnets[i].attrs.networkId, dstNets).Ok?
  {
    if n > 0 {
      SubnetsRunFails(cfg, networks, dstNets, existing, subnets, tenantId, newId, n - 1);
    }
  }

  /** Exactly the subnets the rule selects are created, on the destination
      network matching their own, and the others are left as they were. */
  lemma {:induction false} SubnetsRunAt(cfg: NeutronConfig, networks: seq<Network>, dstNets: seq<Network>, existing: seq<ResHash>,
                                        subnets: seq<Subnet>, tenantId: string, newId: nat -> string, n: nat, i: nat)
    requires i < n <= |subnets|
    requires SubnetsRun(cfg, networks, dstNets, existing, subnets, tenantId, newId, n).error.None?
    ensures var run, before := SubnetsRun(cfg, networks, dstNets, existing, subnets, tenantId, newId, n),
                               SubnetsRun(cfg, networks, dstNets, existing, subnets, tenantId, newId, i);
            var snet := subnets[i];
            && before.error.None?
            && (CreatesSubnet(cfg, snet, existing) ==>
                  && MatchById(networks, snet.attrs.networkId, dstNets).Ok?
                  && run.records[i] == snet.(metaId := Some(newId(|before.requests|)))
                  && |before.requests| < |run.requests|
                  && run.requests[|before.requests|] ==
                     SubnetRequestFor(snet, MatchById(networks, snet.attrs.networkId, dstNets).value.id,
                                      Tenant(cfg, before.tenantId, snet.attrs.tenantName)))
            && (!CreatesSubnet(cfg, snet, existing) ==> run.records[i] == snet)
  {
    var before := SubnetsRun(cfg, networks, dstNets, existing, subnets, tenantId, newId, n - 1);
    assert before.error.None?;
    if i < n - 1 {
      SubnetsRunAt(cfg, networks, dstNets, existing, subnets, tenantId, newId, n - 1, i);
    }
  }

  datatype RuleAttrs = RuleAttrs(remoteGroupId: Option<string>, direction: Value, remoteIpPrefix: Value, protocol: Value,
                                 portRangeMin: Value, portRangeMax: Value, ethertype: Value)
  datatype Rule = Rule(attrs: RuleAttrs, ruleHash: ResHash, metaId: Option<string>)

  datatype SecGroupAttrs = SecGroupAttrs(name: string, tenantId: string, tenantName: string, description: Value,
                                         rules: seq<Rule>)
  type SecGroup = Res<SecGroupAttrs>

  datatype SecGroupRequest = SecGroupRequest(name: string, tenantId: string, description: Value)

  /** A security group is created when it is not the 'default' one and its
      hash is not on the destination. */
  predicate CreatesSecGroup(group: SecGroup, existing: seq<ResHash>) {
    group.attrs.name != DEFAULT_SECGR && group.resHash !in existing
  }

  /** `upload_neutron_security_groups` after the first `n` groups; the
      tenant is looked up only for a group that is created. */
  function SecGroupsRun(cfg: NeutronConfig, groups: seq<SecGroup>, existing: seq<ResHash>, tenantId: string,
                        newId: nat -> string, n: nat): (r: Upload<SecGroup, SecGroupRequest>)
    requires n <= |groups|
    ensures |r.records| == n && r.error.None?
  {
    if n == 0 then Upload([], [], tenantId, None)
    else
      var before := SecGroupsRun(cfg, groups, existing, tenantId, newId, n - 1);
      var group := groups[n - 1];
      if CreatesSecGroup(group, existing) then
        var tenant := Tenant(cfg, before.tenantId, group.attrs.tenantName);
        Upload(before.records + [group.(metaId := Some(newId(|before.requests|)))],
               before.requests + [SecGroupRequest(group.attrs.name, tenant, group.attrs.description)], tenant, None)
      else before.(records := before.records + [group])
  }

  /** Exactly the groups the rule selects are created, so never the
      'default' one, and the others are left as they were. */
  lemma {:induction false} SecGroupsRunAt(cfg: NeutronConfig, groups: seq<SecGroup>, existing: seq<ResHash>, tenantId: string,
                                          newId: nat -> string, n: nat, i: nat)
    requires i < n <= |groups|
    ensures var run, before := SecGroupsRun(cfg, groups, existing, tenantId, newId, n),
                               SecGroupsRun(cfg, groups, existing, tenantId, newId, i);
            && (CreatesSecGroup(groups[i], existing) ==>
                  && run.records[i] == groups[i].(metaId := Some(newId(|before.requests|)))
                  && |before.requests| < |run.requests|
                  && run.requests[|before.requests|].name == groups[i].attrs.name)
            && (!CreatesSecGroup(groups[i], existing) ==> run.records[i] == groups[i])
  {
    if i < n - 1 {
      SecGroupsRunAt(cfg, groups, existing, tenantId, newId, n - 1, i);
    }
  }

  /** No request ever creates a group named 'default'. */
  lemma {:induction false} DefaultSecGroupNeverCreated(cfg: NeutronConfig, groups: seq<SecGroup>, existing: seq<ResHash>,
                                                       tenantId: string, newId: nat -> string, n: nat)
    requires n <= |groups|
    ensures forall k :: 0 <= k < |SecGroupsRun(cfg, groups, existing, tenantId, newId, n).requests| ==>
              SecGroupsRun(cfg, groups, existing, tenantId, newId, n).requests[k].name != DEFAULT_SECGR
  {
    if n > 0 {
      DefaultSecGroupNeverCreated(cfg, groups, existing, tenantId, newId, n - 1);
    }
  }

  datatype RuleRequest = RuleRequest(direction: Value, protocol: Value, portRangeMin: Value, portRangeMax: Value,
                                     ethertype: Value, remoteIpPrefix: Value, securityGroupId: string,
                                     tenantId: string, remoteGroupId: Option<string>)

  /** The hashes of a destination group's rules. */
  function RuleHashes(rules: seq<Rule>): (r: seq<ResHash>)
    ensures |r| == |rules|
    ensures forall i :: 0 <= i < |rules| ==> r[i] == rules[i].ruleHash
  {
    if rules == [] then [] else RuleHashes(rules[..|rules| - 1]) + [rules[|rules| - 1].ruleHash]
  }

  /** A rule is created when its protocol is set and its hash is not among
      the destination group's rules. */
  predicate CreatesRule(rule: Rule, dstGroup: SecGroup) {
    Truthy(rule.attrs.protocol) && rule.ruleHash !in RuleHashes(dstGroup.attrs.rules)
  }

  /** The rules of one group after the first `m`: the rules with
      `meta['id']` set on those created, the requests, the exception. */
  datatype RuleRun = RuleRun(rules: seq<Rule>, requests: seq<RuleRequest>, error: Option<Error>)

  /** The create body of a selected rule in destination group `dstGroup`; a
      remote group is replaced by its destination copy, which must exist. */
  function RuleRequestFor(rule: Rule, dstGroup: SecGroup, groups: seq<SecGroup>, dstGroups: seq<SecGroup>): (r: Result<RuleRequest>)
    ensures r.Err? <==> Present(rule.attrs.remoteGroupId) && MatchById(groups, rule.attrs.remoteGroupId.value, dstGroups).Err?
    ensures r.Ok? ==> r.value.securityGroupId == dstGroup.id && r.value.tenantId == dstGroup.attrs.tenantId
    ensures r.Ok? ==> (r.value.remoteGroupId.Some? <==> Present(rule.attrs.remoteGroupId))
  {
    var remote :-
      if Present(rule.attrs.remoteGroupId) then
        var g :- MatchById(groups, rule.attrs.remoteGroupId.value, dstGroups);
        Ok(Some(g.id))
      else Ok(None);
    Ok(RuleRequest(rule.attrs.direction, rule.attrs.protocol, rule.attrs.portRangeMin, rule.attrs.portRangeMax,
                   rule.attrs.ethertype, rule.attrs.remoteIpPrefix, dstGroup.id, dstGroup.attrs.tenantId, remote))
  }

  /** The inner loop of `upload_sec_group_rules` over a group's first `m`
      rules; `base` create calls were made before it. */
  function GroupRulesRun(rules: seq<Rule>, dstGroup: SecGroup, groups: seq<SecGroup>, dstGroups: seq<SecGroup>,
                         newId: nat -> string, base: nat, m: nat): (r: RuleRun)
    requires m <= |rules|
    ensures r.error.None? ==> |r.rules| == m
  {
    if m == 0 then RuleRun([], [], None)
    else
      var before := GroupRulesRun(rules, dstGroup, groups, dstGroups, newId, base, m - 1);
      if before.error.Some? then before else RuleStep(before, rules[m - 1], dstGroup, groups, dstGroups, newId, base)
  }

  /** One rule of the inner loop. */
  function RuleStep(before: RuleRun, rule: Rule, dstGroup: SecGroup, groups: seq<SecGroup>, dstGroups: seq<SecGroup>,
                    newId: nat -> string, base: nat): (r: RuleRun)
    requires before.error.None?
    ensures r.error.None? ==> |r.rules| == |before.rules| + 1
  {
    if !CreatesRule(rule, dstGroup) then before.(rules := before.rules + [rule])
    else
      match RuleRequestFor(rule, dstGroup, groups, dstGroups)
      case Err(e) => before.(error := Some(e))
      case Ok(q) => RuleRun(before.rules + [rule.(metaId := Some(newId(base + |before.requests|)))], before.requests + [q], None)
  }

  lemma {:induction false} GroupRulesRunStopped(rules: seq<Rule>, dstGroup: SecGroup, groups: seq<SecGroup>, dstGroups: seq<SecGroup>,
                                                newId: nat -> string, base: nat, m: nat, k: nat)
    requires m <= k <= |rules|
    requires GroupRulesRun(rules, dstGroup, groups, dstGroups, newId, base, m).error.Some?
    ensures GroupRulesRun(rules, dstGroup, groups, dstGroups, newId, base, k) == GroupRulesRun(rules, dstGroup, groups, dstGroups, newId, base, m)
    decreases k - m
  {
    if m < k {
      GroupRulesRunStopped(rules, dstGroup, groups, dstGroups, newId, base, m, k - 1);
      var prev := GroupRulesRun(rules, dstGroup, groups, dstGroups, newId, base, k - 1);
      assert prev.error.Some?;
    }
  }

  /** Exactly the rules the rule selects are created, each in the matching
      destination group and its tenant; the others are left as they were. */
  lemma {:induction false} GroupRulesRunAt(rules: seq<Rule>, dstGroup: SecGroup, groups: seq<SecGroup>, dstGroups: seq<SecGroup>,
                                           newId: nat -> string, base: nat, m: nat, i: nat)
    requires i < m <= |rules|
    requires GroupRulesRun(rules, dstGroup, groups, dstGroups, newId, base, m).error.None?
    ensures var run, before := GroupRulesRun(rules, dstGroup, groups, dstGroups, newId, base, m),
                               GroupRulesRun(rules, dstGroup, groups, dstGroups, newId, base, i);
            && before.error.None?
            && (CreatesRule(rules[i], dstGroup) ==>
                  && run.rules[i] == rules[i].(metaId := Some(newId(base + |before.requests|)))
                  && |before.requests| < |run.requests|
                  && run.requests[|before.requests|].securityGroupId == dstGroup.id
                  && run.requests[|before.requests|].tenantId == dstGroup.attrs.tenantId)
            && (!CreatesRule(rules[i], dstGroup) ==> run.rules[i] == rules[i])
  {
    var before := GroupRulesRun(rules, dstGroup, groups, dstGroups, newId, base, m - 1);
    assert before.error.None?;
    if i < m - 1 {
      GroupRulesRunAt(rules, dstGroup, groups, dstGroups, newId, base, m - 1, i);
    }
  }

  /** One group of `upload_sec_group_rules`: its destination copy, found by
      hash, must exist (TypeError otherwise); then its rules are uploaded. */
  function RulesStep(before: Upload<SecGroup, RuleRequest>, group: SecGroup, groups: seq<SecGroup>, dstGroups: seq<SecGroup>,
                     newId: nat -> string): (r: Upload<SecGroup, RuleRequest>)
    requires before.error.None?
    ensures r.error.None? ==> |r.records| == |before.records| + 1
  {
    match GetResByHash(dstGroups, group.resHash)
    case None => before.(error := Some(TypeError("'NoneType' object has no attribute '__getitem__'")))
    case Some(dstGroup) =>
      var inner := GroupRulesRun(group.attrs.rules, dstGroup, groups, dstGroups, newId, |before.requests|, |group.attrs.rules|);
      if inner.error.Some? then before.(requests := before.requests + inner.requests, error := inner.error)
      else before.(records := before.records + [group.(attrs := group.attrs.(rules := inner.rules))],
                   requests := before.requests + inner.requests)
  }

  /** `upload_sec_group_rules` after the first `n` groups. */
  function RulesRun(groups: seq<SecGroup>, dstGroups: seq<SecGroup>, newId: nat -> string, n: nat): (r: Upload<SecGroup, RuleRequest>)
    requires n <= |groups|
    ensures r.error.None? ==> |r.records| == n
  {
    if n == 0 then Upload([], [], "", None)
    else
      var before := RulesRun(groups, dstGroups, newId, n - 1);
      if before.error.Some? then before else RulesStep(before, groups[n - 1], groups, dstGroups, newId)
  }

  lemma {:induction false} RulesRunStopped(groups: seq<SecGroup>, dstGroups: seq<SecGroup>, newId: nat -> string, n: nat, m: nat)
    requires n <= m <= |groups|
    requires RulesRun(groups, dstGroups, newId, n).error.Some?
    ensures RulesRun(groups, dstGroups, newId, m) == RulesRun(groups, dstGroups, newId, n)
    decreases m - n
  {
    if n < m {
      RulesRunStopped(groups, dstGroups, newId, n, m - 1);
      var prev := RulesRun(groups, dstGroups, newId, m - 1);
      assert prev.error.Some?;
    }
  }

  /** Each group's rules are uploaded against the destination group with the
      same hash, and nothing else about the group changes. */
  lemma {:induction false} RulesRunAt(groups: seq<SecGroup>, dstGroups: seq<SecGroup>, newId: nat -> string, n: nat, i: nat)
    requires i < n <= |groups|
    requires RulesRun(groups, dstGroups, newId, n).error.None?
    ensures var run, before := RulesRun(groups, dstGroups, newId, n), RulesRun(groups, dstGroups, newId, i);
            && before.error.None?
            && GetResByHash(dstGroups, groups[i].resHash).Some?
            && run.records[i] == groups[i].(attrs := groups[i].attrs.(rules :=
                 GroupRulesRun(groups[i].attrs.rules, GetResByHash(dstGroups, groups[i].resHash).value, groups, dstGroups,
                               newId, |before.requests|, |groups[i].attrs.rules|).rules))
  {
    var before := RulesRun(groups, dstGroups, newId, n - 1);
    assert before.error.None?;
    if i < n - 1 {
      RulesRunAt(groups, dstGroups, newId, n - 1, i);
    }
  }

  datatype FloatingIp = FloatingIp(id: string, tenantId: string, tenantName: string, floatingNetworkId: string,
                                   address: string)

  /** What `upload_floatingips` asks of the destination. */
  datatype FloatingAction =
    | Allocate(networkId: string)                      // allocate_floatingips: create until the network is full
    | DeleteFloatingIp(id: string)
    | CreateFloatingIp(networkId: string, tenantId: string)

  /** The destination external network of every floating IP, as
      `get_new_extnet_id` finds it. */
  function ExtNetIds(cfg: NeutronConfig, networks: seq<Network>, dstNets: seq<Network>, floats: seq<FloatingIp>): (r: seq<Result<string>>)
    ensures |r| == |floats|
  {
    if floats == [] then []
    else ExtNetIds(cfg, networks, dstNets, floats[..|floats| - 1]) +
         [GetNewExtnetId(cfg.extNetMap, floats[|floats| - 1].floatingNetworkId, networks, dstNets)]
  }

  lemma {:induction false} ExtNetIdsAt(cfg: NeutronConfig, networks: seq<Network>, dstNets: seq<Network>, floats: seq<FloatingIp>, i: nat)
    requires i < |floats|
    ensures ExtNetIds(cfg, networks, dstNets, floats)[i] == GetNewExtnetId(cfg.extNetMap, floats[i].floatingNetworkId, networks, dstNets)
    decreases |floats|
  {
    if i < |floats| - 1 {
      ExtNetIdsAt(cfg, networks, dstNets, floats[..|floats| - 1], i);
    }
  }

  /** The networks found among the first `n` lookups, in order. */
  function MappedExtNets(ids: seq<Result<string>>, n: nat): seq<string>
    requires n <= |ids|
  {
    if n == 0 then []
    else MappedExtNets(ids, n - 1) + (if ids[n - 1].Ok? then [ids[n - 1].value] else [])
  }

  /** The allocation loop of `upload_floatingips` after the first `n`
      floating IPs, whose destination networks `ids` holds: the networks
      allocated, and the exception that stopped it. */
  function AllocRun(ids: seq<Result<string>>, n: nat): Partial<string>
    requires n <= |ids|
  {
    if n == 0 then Partial([], None)
    else
      var before := AllocRun(ids, n - 1);
      if before.error.Some? then before
      else match ids[n - 1]
        case Err(e) => before.(error := Some(e))
        case Ok(id) => if id in before.values then before else before.(values := before.values + [id])
  }

  lemma {:induction false} AllocRunStopped(ids: seq<Result<string>>, n: nat, m: nat)
    requires n <= m <= |ids|
    requires AllocRun(ids, n).error.Some?
    ensures AllocRun(ids, m) == AllocRun(ids, n)
    decreases m - n
  {
    if n < m {
      AllocRunStopped(ids, n, m - 1);
      var prev := AllocRun(ids, m - 1);
      assert prev.error.Some?;
    }
  }

  /** The allocation stops at the first floating IP whose network is not
      found, with its exception. */
  lemma {:induction false} AllocRunFails(ids: seq<Result<string>>, n: nat)
    requires n <= |ids|
    ensures AllocRun(ids, n).error.None? <==> forall i :: 0 <= i < n ==> ids[i].Ok?
    ensures AllocRun(ids, n).error.Some? ==>
              exists i :: 0 <= i < n && ids[i] == Err(AllocRun(ids, n).error.value) && forall j :: 0 <= j < i ==> ids[j].Ok?
  {
    if n > 0 {
      AllocRunFails(ids, n - 1);
    }
  }

  /** Without an error, the networks allocated are the floating IPs'
      destination networks without repeats, in first-seen order: each is
      allocated once. */
  lemma {:induction false} AllocRunOnce(ids: seq<Result<string>>, n: nat)
    requires n <= |ids|
    requires AllocRun(ids, n).error.None?
    ensures AllocRun(ids, n).values == Dedup(MappedExtNets(ids, n))
  {
    if n > 0 {
      var before := AllocRun(ids, n - 1);
      assert before.error.None?;
      AllocRunOnce(ids, n - 1);
      var mapped := MappedExtNets(ids, n);
      assert mapped[..|mapped| - 1] == MappedExtNets(ids, n - 1);
    }
  }

  /** The reassignments for one source floating IP among the first `m`
      existing ones: a copy with its address on its destination network held
      by another tenant is deleted and recreated for the tenant. */
  function Reassign(existing: seq<FloatingIp>, address: string, extNetId: string, tenantId: string, m: nat): seq<FloatingAction>
    requires m <= |existing|
  {
    if m == 0 then []
    else
      var fip := existing[m - 1];
      Reassign(existing, address, extNetId, tenantId, m - 1) +
      (if fip.address == address && fip.floatingNetworkId == extNetId && fip.tenantId != tenantId
       then [DeleteFloatingIp(fip.id), CreateFloatingIp(extNetId, tenantId)] else [])
  }

  datatype RecreateState = RecreateState(actions: seq<FloatingAction>, tenantId: string, error: Option<Error>)

  /** `recreate_floatingips` after the first `n` source floating IPs, whose
      destination networks `ids` holds; it is called without a tenant, so the
      first floating IP's tenant is used for all of them once it resolves. */
  function RecreateRun(cfg: NeutronConfig, floats: seq<FloatingIp>, ids: seq<Result<string>>, existing: seq<FloatingIp>,
                       n: nat): RecreateState
    requires n <= |floats| == |ids|
  {
    if n == 0 then RecreateState([], "", None)
    else
      var before := RecreateRun(cfg, floats, ids, existing, n - 1);
      if before.error.Some? then before
      else
        var tenant := Tenant(cfg, before.tenantId, floats[n - 1].tenantName);
        match ids[n - 1]
        case Err(e) => RecreateState(before.actions, tenant, Some(e))
        case Ok(ext) => RecreateState(before.actions + Reassign(existing, floats[n - 1].address, ext, tenant, |existing|), tenant, None)
  }

  lemma {:induction false} RecreateRunStopped(cfg: NeutronConfig, floats: seq<FloatingIp>, ids: seq<Result<string>>,
                                              existing: seq<FloatingIp>, n: nat, m: nat)
    requires n <= m <= |floats| == |ids|
    requires RecreateRun(cfg, floats, ids, existing, n).error.Some?
    ensures RecreateRun(cfg, floats, ids, existing, m) == RecreateRun(cfg, floats, ids, existing, n)
    decreases m - n
  {
    if n < m {
      RecreateRunStopped(cfg, floats, ids, existing, n, m - 1);
      var prev := RecreateRun(cfg, floats, ids, existing, m - 1);
      assert prev.error.Some?;
    }
  }

  /** Recreation stops exactly at a floating IP whose network is not found;
      so once the allocation loop went through, it cannot fail. */
  lemma {:induction false} RecreateRunFails(cfg: NeutronConfig, floats: seq<FloatingIp>, ids: seq<Result<string>>,
                                            existing: seq<FloatingIp>, n: nat)
    requires n <= |floats| == |ids|
    ensures RecreateRun(cfg, floats, ids, existing, n).error.None? <==> forall i :: 0 <= i < n ==> ids[i].Ok?
    ensures AllocRun(ids, n).error.None? ==> RecreateRun(cfg, floats, ids, existing, n).error.None?
  {
    AllocRunFails(ids, n);
    if n > 0 {
      RecreateRunFails(cfg, floats, ids, existing, n - 1);
    }
  }

  /** A floating IP is only ever deleted to be recreated at once on the same
      network for the tenant, and only one whose address is a source address
      and whose tenant differs. */
  lemma {:induction false} ReassignPairs(existing: seq<FloatingIp>, address: string, extNetId: string, tenantId: string, m: nat)
    requires m <= |existing|
    ensures |Reassign(existing, address, extNetId, tenantId, m)| % 2 == 0
    ensures forall k :: 0 <= k < |Reassign(existing, address, extNetId, tenantId, m)| && k % 2 == 1 ==>
              Reassign(existing, address, extNetId, tenantId, m)[k] == CreateFloatingIp(extNetId, tenantId)
    ensures forall k :: 0 <= k < |Reassign(existing, address, extNetId, tenantId, m)| && k % 2 == 0 ==>
              exists j :: 0 <= j < m && Reassign(existing, address, extNetId, tenantId, m)[k] == DeleteFloatingIp(existing[j].id) &&
                          existing[j].address == address && existing[j].floatingNetworkId == extNetId &&
                          existing[j].tenantId != tenantId
  {
    if m > 0 {
      ReassignPairs(existing, address, extNetId, tenantId, m - 1);
    }
  }

  /** The addresses of the source floating IPs. */
  function FloatingAddresses(floats: seq<FloatingIp>): (r: seq<string>)
    ensures |r| == |floats|
    ensures forall i :: 0 <= i < |floats| ==> r[i] == floats[i].address
  {
    if floats == [] then [] else FloatingAddresses(floats[..|floats| - 1]) + [floats[|floats| - 1].address]
  }

  /** The ids of the first `m` existing floating IPs whose address is not a
      source address, in order. */
  function RedundantIds(floats: seq<FloatingIp>, existing: seq<FloatingIp>, m: nat): seq<string>
    requires m <= |existing|
  {
    if m == 0 then []
    else RedundantIds(floats, existing, m - 1) +
         (if existing[m - 1].address !in FloatingAddresses(floats) then [existing[m - 1].id] else [])
  }

  /** `delete_redundant_floatingips` deletes exactly the existing floating
      IPs whose address is not among the source addresses. */
  lemma {:induction false} RedundantExactly(floats: seq<FloatingIp>, existing: seq<FloatingIp>, m: nat, id: string)
    requires m <= |existing|
    ensures id in RedundantIds(floats, existing, m) <==>
              exists j :: 0 <= j < m && existing[j].id == id &&
                          forall i :: 0 <= i < |floats| ==> floats[i].address != existing[j].address
  {
    if m > 0 {
      RedundantExactly(floats, existing, m - 1, id);
    }
  }

  /** What `upload_floatingips` asks for: the allocation of every network
      in `networkIds`. */
  function Allocations(networkIds: seq<string>): (r: seq<FloatingAction>)
    ensures |r| == |networkIds|
    ensures forall i :: 0 <= i < |networkIds| ==> r[i] == Allocate(networkIds[i])
  {
    if networkIds == [] then [] else Allocations(networkIds[..|networkIds| - 1]) + [Allocate(networkIds[|networkIds| - 1])]
  }

  /** The deletion of every floating IP in `ids`. */
  function Deletions(ids: seq<string>): (r: seq<FloatingAction>)
    ensures |r| == |ids|
    ensures forall i :: 0 <= i < |ids| ==> r[i] == DeleteFloatingIp(ids[i])
  {
    if ids == [] then [] else Deletions(ids[..|ids| - 1]) + [DeleteFloatingIp(ids[|ids| - 1])]
  }

  class NeutronNetwork {
    const cfg: NeutronConfig

    constructor (cfg: NeutronConfig)
      ensures this.cfg == cfg
    {
      this.cfg := cfg;
    }

    /** `get_resource_hash`, with a list field contributing its elements: a
        missing field raises KeyError; the resource comes back with its
        `cidr` normalised. */
    static method GetResourceHash(resource: map<string, Value>, args: seq<string>, cidrNorm: Value -> Value)
      returns (r: Result<Hashed>)
      ensures r == ResourceHash(resource, args, cidrNorm)
    {
      var res := resource;
      var items: seq<Value> := [];
      var i := 0;
      while i < |args|
        invariant 0 <= i <= |args|
        invariant HashItems(resource, args, cidrNorm, true, i) == HashState(res, items, None)
      {
        var arg := args[i];
        if arg !in res {
          HashItemsStopped(resource, args, cidrNorm, true, i + 1, |args|);
          return Err(KeyError(arg));
        }
        if res[arg].VList? {
          items := items + res[arg].items;
        } else {
          if arg == CIDR {
            res := res[arg := cidrNorm(res[arg])];
          }
          items := items + [res[arg]];
        }
        i := i + 1;
      }
      r := Ok(Hashed(res, multiset(NormaliseAll(items))));
    }

    /** The `ips` and `subnet_ids` of `convert_routers`: the addresses of
        every fixed IP on the router's ports, and their subnets without
        repeats in first-seen order. */
    static method RouterAddresses(routerId: string, ports: seq<Port>) returns (ips: seq<string>, subnetIds: seq<string>)
      ensures ips == Addresses(RouterFixedIps(routerId, ports, |ports|))
      ensures subnetIds == Dedup(SubnetIds(RouterFixedIps(routerId, ports, |ports|)))
    {
      ips := [];
      subnetIds := [];
      var i := 0;
      while i < |ports|
        invariant 0 <= i <= |ports|
        invariant ips == Addresses(RouterFixedIps(routerId, ports, i))
        invariant subnetIds == Dedup(SubnetIds(RouterFixedIps(routerId, ports, i)))
      {
        ghost var seen := RouterFixedIps(routerId, ports, i);
        if ports[i].deviceId == routerId {
          ips, subnetIds := AddFixedIps(seen, ips, subnetIds, ports[i].fixedIps);
        } else {
          assert RouterFixedIps(routerId, ports, i + 1) == seen;
        }
        i := i + 1;
      }
    }

    /** The inner loop of `convert_routers` over one port's fixed IPs,
        after the fixed IPs `seen`. */
    static method AddFixedIps(ghost seen: seq<FixedIp>, ips: seq<string>, subnetIds: seq<string>, fixedIps: seq<FixedIp>)
      returns (ips': seq<string>, subnetIds': seq<string>)
      requires ips == Addresses(seen) && subnetIds == Dedup(SubnetIds(seen))
      ensures ips' == Addresses(seen + fixedIps) && subnetIds' == Dedup(SubnetIds(seen + fixedIps))
    {
      ips', subnetIds' := ips, subnetIds;
      assert seen + fixedIps[..0] == seen;
      var j := 0;
      while j < |fixedIps|
        invariant 0 <= j <= |fixedIps|
        invariant ips' == Addresses(seen + fixedIps[..j])
        invariant subnetIds' == Dedup(SubnetIds(seen + fixedIps[..j]))
      {
        assert seen + fixedIps[..j + 1] == (seen + fixedIps[..j]) + [fixedIps[j]];
        AddressesSnoc(seen + fixedIps[..j], fixedIps[j]);
        DedupSnoc(SubnetIds(seen + fixedIps[..j]), fixedIps[j].subnetId);
        ips' := ips' + [fixedIps[j].ipAddress];
        if fixedIps[j].subnetId !in subnetIds' {
          subnetIds' := subnetIds' + [fixedIps[j].subnetId];
        }
        j := j + 1;
      }
      assert fixedIps[..j] == fixedIps;
    }

    /** `upload_networks`: `dstNets` is the destination's network listing,
        `newId(k)` the id the k-th create call returns. */
    method UploadNetworks(networks: seq<Network>, dstNets: seq<Network>, tenantId: string, newId: nat -> string)
      returns (r: Upload<Network, NetworkRequest>)
      ensures r == NetworksRun(cfg, networks, Hashes(dstNets), tenantId, newId, |networks|)
    {
      var existing := Hashes(dstNets);
      var records: seq<Network> := [];
      var requests: seq<NetworkRequest> := [];
      var tenant := tenantId;
      var i := 0;
      while i < |networks|
        invariant 0 <= i <= |networks|
        invariant NetworksRun(cfg, networks, existing, tenantId, newId, i) == Upload(records, requests, tenant, None)
      {
        var net := networks[i];
        if tenant == "" {
          tenant := cfg.tenantIdByName(net.attrs.tenantName);
        }
        if SkipsExternal(cfg, net.attrs.external, net.id) {
          records := records + [net];
        } else if net.resHash !in existing {
          records := records + [net.(metaId := Some(newId(|requests|)))];
          requests := requests + [NetworkRequestFor(cfg, net, tenant)];
        } else {
          records := records + [net];
        }
        i := i + 1;
      }
      r := Upload(records, requests, tenant, None);
    }

    /** `upload_subnets`: `dstNets` and `dstSubnets` are the destination's
        listings.  A subnet whose network has no match raises TypeError. */
    method UploadSubnets(networks: seq<Network>, subnets: seq<Subnet>, dstNets: seq<Network>, dstSubnets: seq<Subnet>,
                         tenantId: string, newId: nat -> string)
      returns (r: Upload<Subnet, SubnetRequest>)
      ensures r == SubnetsRun(cfg, networks, dstNets, Hashes(dstSubnets), subnets, tenantId, newId, |subnets|)
    {
      var existing := Hashes(dstSubnets);
      var records: seq<Subnet> := [];
      var requests: seq<SubnetRequest> := [];
      var tenant := tenantId;
      var i := 0;
      while i < |subnets|
        invariant 0 <= i <= |subnets|
        invariant SubnetsRun(cfg, networks, dstNets, existing, subnets, tenantId, newId, i) == Upload(records, requests, tenant, None)
      {
        var snet := subnets[i];
        if SkipsExternal(cfg, snet.attrs.external, snet.attrs.networkId) {
          records := records + [snet];
        } else {
          if tenant == "" {
            tenant := cfg.tenantIdByName(snet.attrs.tenantName);
          }
          var network := MatchById(networks, snet.attrs.networkId, dstNets);
          if network.Err? {
            SubnetsRunStopped(cfg, networks, dstNets, existing, subnets, tenantId, newId, i + 1, |subnets|);
            return Upload(records, requests, tenant, Some(network.error));
          }
          if snet.resHash !in existing {
            records := records + [snet.(metaId := Some(newId(|requests|)))];
            requests := requests + [SubnetRequestFor(snet, network.value.id, tenant)];
          } else {
            records := records + [snet];
          }
        }
        i := i + 1;
      }
      r := Upload(records, requests, tenant, None);
    }

    /** `upload_neutron_security_groups`: `dstGroups` is the destination's
        listing. */
    method UploadSecurityGroups(groups: seq<SecGroup>, dstGroups: seq<SecGroup>, tenantId: string, newId: nat -> string)
      returns (r: Upload<SecGroup, SecGroupRequest>)
      ensures r == SecGroupsRun(cfg, groups, Hashes(dstGroups), tenantId, newId, |groups|)
    {
      var existing := Hashes(dstGroups);
      var records: seq<SecGroup> := [];
      var requests: seq<SecGroupRequest> := [];
      var tenant := tenantId;
      var i := 0;
      while i < |groups|
        invariant 0 <= i <= |groups|
        invariant SecGroupsRun(cfg, groups, existing, tenantId, newId, i) == Upload(records, requests, tenant, None)
      {
        var group := groups[i];
        if group.attrs.name != DEFAULT_SECGR && group.resHash !in existing {
          if tenant == "" {
            tenant := cfg.tenantIdByName(group.attrs.tenantName);
          }
          records := records + [group.(metaId := Some(newId(|requests|)))];
          requests := requests + [SecGroupRequest(group.attrs.name, tenant, group.attrs.description)];
        } else {
          records := records + [group];
        }
        i := i + 1;
      }
      r := Upload(records, requests, tenant, None);
    }

    /** The inner loop of `upload_sec_group_rules` over one group's rules,
        against its destination copy `dstGroup`; `base` create calls were
        made before it. */
    static method UploadGroupRules(rules: seq<Rule>, dstGroup: SecGroup, groups: seq<SecGroup>, dstGroups: seq<SecGroup>,
                                   newId: nat -> string, base: nat)
      returns (r: RuleRun)
      ensures r == GroupRulesRun(rules, dstGroup, groups, dstGroups, newId, base, |rules|)
    {
      var exRules := RuleHashes(dstGroup.attrs.rules);
      var done: seq<Rule> := [];
      var requests: seq<RuleRequest> := [];
      var m := 0;
      while m < |rules|
        invariant 0 <= m <= |rules|
        invariant GroupRulesRun(rules, dstGroup, groups, dstGroups, newId, base, m) == RuleRun(done, requests, None)
      {
        var rule := rules[m];
        if Truthy(rule.attrs.protocol) && rule.ruleHash !in exRules {
          var request := RuleRequestFor(rule, dstGroup, groups, dstGroups);
          if request.Err? {
            GroupRulesRunStopped(rules, dstGroup, groups, dstGroups, newId, base, m + 1, |rules|);
            return RuleRun(done, requests, Some(request.error));
          }
          done := done + [rule.(metaId := Some(newId(base + |requests|)))];
          requests := requests + [request.value];
        } else {
          done := done + [rule];
        }
        m := m + 1;
      }
      r := RuleRun(done, requests, None);
    }

    /** `upload_sec_group_rules`: every group's rules go to the destination
        group with its hash, which must exist. */
    static method UploadSecGroupRules(groups: seq<SecGroup>, dstGroups: seq<SecGroup>, newId: nat -> string)
      returns (r: Upload<SecGroup, RuleRequest>)
      ensures r == RulesRun(groups, dstGroups, newId, |groups|)
    {
      var records: seq<SecGroup> := [];
      var requests: seq<RuleRequest> := [];
      var i := 0;
      while i < |groups|
        invariant 0 <= i <= |groups|
        invariant RulesRun(groups, dstGroups, newId, i) == Upload(records, requests, "", None)
      {
        var group := groups[i];
        var dstGroup := GetResByHash(dstGroups, group.resHash);
        if dstGroup.None? {
          RulesRunStopped(groups, dstGroups, newId, i + 1, |groups|);
          return Upload(records, requests, "", Some(TypeError("'NoneType' object has no attribute '__getitem__'")));
        }
        var inner := UploadGroupRules(group.attrs.rules, dstGroup.value, groups, dstGroups, newId, |requests|);
        requests := requests + inner.requests;
        if inner.error.Some? {
          RulesRunStopped(groups, dstGroups, newId, i + 1, |groups|);
          return Upload(records, requests, "", inner.error);
        }
        records := records + [group.(attrs := group.attrs.(rules := inner.rules))];
        i := i + 1;
      }
      r := Upload(records, requests, "", None);
    }

    /** `get_new_extnet_id` for the `i`-th floating IP's network. */
    method NewExtnetIdOf(networks: seq<Network>, dstNets: seq<Network>, floats: seq<FloatingIp>, i: nat)
      returns (r: Result<string>)
      requires i < |floats|
      ensures r == ExtNetIds(cfg, networks, dstNets, floats)[i]
    {
      ExtNetIdsAt(cfg, networks, dstNets, floats, i);
      r := GetNewExtnetId(cfg.extNetMap, floats[i].floatingNetworkId, networks, dstNets);
    }

    /** The allocation loop of `upload_floatingips`: every destination
        external network of a floating IP is extNets, once. */
    method AllocateFloatingIps(networks: seq<Network>, dstNets: seq<Network>, floats: seq<FloatingIp>)
      returns (extNets: seq<string>, err: Option<Error>)
      ensures var run := AllocRun(ExtNetIds(cfg, networks, dstNets, floats), |floats|);
              extNets == run.values && err == run.error
    {
      ghost var ids := ExtNetIds(cfg, networks, dstNets, floats);
      extNets := [];
      var i := 0;
      while i < |floats|
        invariant 0 <= i <= |floats|
        invariant AllocRun(ids, i) == Partial(extNets, None)
      {
        var extNetId := NewExtnetIdOf(networks, dstNets, floats, i);
        if extNetId.Err? {
          AllocRunStopped(ids, i + 1, |floats|);
          return extNets, Some(extNetId.error);
        }
        if extNetId.value !in extNets {
          extNets := extNets + [extNetId.value];
        }
        i := i + 1;
      }
      err := None;
    }

    /** `recreate_floatingips`, called without a tenant: `existing` is the
        destination's floating IP listing. */
    method RecreateFloatingIps(floats: seq<FloatingIp>, networks: seq<Network>, dstNets: seq<Network>,
                               existing: seq<FloatingIp>)
      returns (actions: seq<FloatingAction>, err: Option<Error>)
      ensures var run := RecreateRun(cfg, floats, ExtNetIds(cfg, networks, dstNets, floats), existing, |floats|);
              actions == run.actions && err == run.error
    {
      ghost var ids := ExtNetIds(cfg, networks, dstNets, floats);
      actions := [];
      var tenant := "";
      var i := 0;
      while i < |floats|
        invariant 0 <= i <= |floats|
        invariant RecreateRun(cfg, floats, ids, existing, i) == RecreateState(actions, tenant, None)
      {
        var src := floats[i];
        if tenant == "" {
          tenant := cfg.tenantIdByName(src.tenantName);
        }
        var extNetId := NewExtnetIdOf(networks, dstNets, floats, i);
        if extNetId.Err? {
          RecreateRunStopped(cfg, floats, ids, existing, i + 1, |floats|);
          return actions, Some(extNetId.error);
        }
        var reassigned := ReassignFloatingIps(existing, src.address, extNetId.value, tenant);
        actions := actions + reassigned;
        i := i + 1;
      }
      err := None;
    }

    /** The inner loop of `recreate_floatingips` for one source address on
        destination network `extNetId`. */
    static method ReassignFloatingIps(existing: seq<FloatingIp>, address: string, extNetId: string, tenantId: string)
      returns (actions: seq<FloatingAction>)
      ensures actions == Reassign(existing, address, extNetId, tenantId, |existing|)
    {
      actions := [];
      var j := 0;
      while j < |existing|
        invariant 0 <= j <= |existing|
        invariant actions == Reassign(existing, address, extNetId, tenantId, j)
      {
        var floating := existing[j];
        if floating.address == address && floating.floatingNetworkId == extNetId && floating.tenantId != tenantId {
          actions := actions + [DeleteFloatingIp(floating.id), CreateFloatingIp(extNetId, tenantId)];
        }
        j := j + 1;
      }
    }

    /** `delete_redundant_floatingips`: delete every existing floating IP
        whose address is not a source address. */
    static method DeleteRedundantFloatingIps(floats: seq<FloatingIp>, existing: seq<FloatingIp>) returns (deleted: seq<string>)
      ensures deleted == RedundantIds(floats, existing, |existing|)
    {
      var srcAddresses := FloatingAddresses(floats);
      deleted := [];
      var j := 0;
      while j < |existing|
        invariant 0 <= j <= |existing|
        invariant deleted == RedundantIds(floats, existing, j)
      {
        if existing[j].address !in srcAddresses {
          deleted := deleted + [existing[j].id];
        }
        j := j + 1;
      }
    }

    /** `upload_floatingips`: allocate the floating IPs' networks, then
        reassign and delete against `existing`, the destination's floating
        IPs listed after the allocation. */
    method UploadFloatingIps(networks: seq<Network>, floats: seq<FloatingIp>, dstNets: seq<Network>,
                             existing: seq<FloatingIp>)
      returns (actions: seq<FloatingAction>, err: Option<Error>)
      ensures var ids := ExtNetIds(cfg, networks, dstNets, floats);
              var alloc := AllocRun(ids, |floats|);
              var recreate := RecreateRun(cfg, floats, ids, existing, |floats|);
              && (alloc.error.Some? ==> actions == Allocations(alloc.values) && err == alloc.error)
              && (alloc.error.None? ==>
                    actions == Allocations(alloc.values) + recreate.actions + Deletions(RedundantIds(floats, existing, |existing|)) &&
                    err == None)
    {
      var extNets, allocErr := AllocateFloatingIps(networks, dstNets, floats);
      actions := Allocations(extNets);
      if allocErr.Some? {
        return actions, allocErr;
      }
      var recreated, recreateErr := RecreateFloatingIps(floats, networks, dstNets, existing);
      actions := actions + recreated;
      RecreateRunFails(cfg, floats, ExtNetIds(cfg, networks, dstNets, floats), existing, |floats|);
      assert recreateErr.None?;
      var deleted := DeleteRedundantFloatingIps(floats, existing);
      actions := actions + Deletions(deleted);
      err := None;
    }
  }
}
