// The Linode adapter: lifetime bookkeeping in "gmab-..." tag strings, the
// listing filter and record mapping, label lookup, terminate dispatch and
// spawn. Every HTTP exchange is a reply value in `World`; each operation also
// returns the requests it issued, in order.

module Linode {
  import opened Common
  import opened Base

  /** An instance object as the Linode API lists it. A missing "tags" key is
      the empty list, as `instance.get("tags", [])` reads it. */
  datatype Server = Server(
    id: int,
    name: string,
    status: string,
    tags: seq<string>,
    ipv4: seq<string>,
    region: Option<string>,
    image: Option<string>)

  /** The body of a successful create reply. */
  datatype Created = Created(id: int, ipv4: seq<string>, status: string)

  datatype CreateRequest = CreateRequest(
    linodeType: string,
    region: string,
    image: string,
    authorizedKeys: seq<string>,
    rootPass: string,
    name: string,
    tags: seq<string>)

  /** The requests an operation issues (the key-file read included). */
  datatype Call =
    | ReadKeyFile(path: string)
    | ListServers
    | CreateServer(request: CreateRequest)
    | DeleteServer(id: string)

  /** The replies the Linode API gives during one command. */
  datatype World = World(
    servers: Reply<seq<Server>>,
    created: Reply<Created>,
    deleted: Reply<()>)

  const OWNER_TAG: string := "gmab"
  const CREATION_PREFIX: string := "gmab-creation-time-"
  const LIFETIME_PREFIX: string := "gmab-lifetime-"
  const NAME_PREFIX: string := "gmab-"

  function CreationTag(t: int): string { CREATION_PREFIX + IntToString(t) }
  function LifetimeTag(m: int): string { LIFETIME_PREFIX + IntToString(m) }

  /** The tags spawn_instance writes. */
  function SpawnTags(creationTime: int, lifetimeMinutes: int): seq<string> {
    [OWNER_TAG, CreationTag(creationTime), LifetimeTag(lifetimeMinutes)]
  }

  predicate IsCreationTag(tag: string) { StartsWith(tag, CREATION_PREFIX) }
  predicate IsLifetimeTag(tag: string) { StartsWith(tag, LIFETIME_PREFIX) }

  predicate IsExpiryTag(tag: string) {
    IsCreationTag(tag) || IsLifetimeTag(tag)
  }

  // ---------------------------------------------------------------------
  // _get_instance_expiry_info

  /** One iteration of the tag loop: a creation or lifetime tag replaces the
      corresponding value by the integer after its last '-'. */
  function TagStep(tag: string, c: int, l: int): Result<(int, int)> {
    if IsCreationTag(tag) then
      match ParseInt(LastSegment(tag, '-'))
      case None => Err(PARSE_ERROR)
      case Some(n) => Ok((n, l))
    else if IsLifetimeTag(tag) then
      match ParseInt(LastSegment(tag, '-'))
      case None => Err(PARSE_ERROR)
      case Some(n) => Ok((c, n))
    else Ok((c, l))
  }

  /** The loop over the tags from the state (c, l). */
  function ParseTagsFrom(tags: seq<string>, c: int, l: int): Result<(int, int)>
    decreases |tags|
  {
    if tags == [] then Ok((c, l))
    else
      match TagStep(tags[0], c, l)
      case Err(e) => Err(e)
      case Ok(p) => ParseTagsFrom(tags[1..], p.0, p.1)
  }

  /** The helper's result, starting from the defaults creation 0, lifetime 60. */
  function ExpiryFromTags(tags: seq<string>, now: int): Result<ExpiryInfo> {
    match ParseTagsFrom(tags, 0, DEFAULT_LIFETIME)
    case Err(e) => Err(e)
    case Ok(p) => Ok(MakeExpiry(p.0, p.1, now))
  }

  method GetInstanceExpiryInfo(tags: seq<string>, now: int) returns (r: Result<ExpiryInfo>)
    ensures r == ExpiryFromTags(tags, now)
  {
    var creationTime, lifetimeMinutes := 0, DEFAULT_LIFETIME;
    var i := 0;
    while i < |tags|
      invariant 0 <= i <= |tags|
      invariant ParseTagsFrom(tags, 0, DEFAULT_LIFETIME) == ParseTagsFrom(tags[i..], creationTime, lifetimeMinutes)
    {
      assert tags[i..][1..] == tags[i + 1..];
      var tag := tags[i];
      if IsCreationTag(tag) {
        var n := ParseInt(LastSegment(tag, '-'));
        if n.None? {
          return Err(PARSE_ERROR);
        }
        creationTime := n.value;
      } else if IsLifetimeTag(tag) {
        var n := ParseInt(LastSegment(tag, '-'));
        if n.None? {
          return Err(PARSE_ERROR);
        }
        lifetimeMinutes := n.value;
      }
      i := i + 1;
    }
    r := Ok(MakeExpiry(creationTime, lifetimeMinutes, now));
  }

  lemma {:induction false} ParseTagsFromAppend(a: seq<string>, b: seq<string>, c: int, l: int)
    ensures ParseTagsFrom(a, c, l).Err? ==> ParseTagsFrom(a + b, c, l) == ParseTagsFrom(a, c, l)
    ensures ParseTagsFrom(a, c, l).Ok? ==>
      ParseTagsFrom(a + b, c, l) == ParseTagsFrom(b, ParseTagsFrom(a, c, l).value.0, ParseTagsFrom(a, c, l).value.1)
    decreases |a|
  {
    if a == [] {
      assert a + b == b;
    } else {
      assert (a + b)[0] == a[0] && (a + b)[1..] == a[1..] + b;
      match TagStep(a[0], c, l)
      case Err(e) =>
      case Ok(p) => ParseTagsFromAppend(a[1..], b, p.0, p.1);
    }
  }

  /** Without creation or lifetime tags the state is left as it was. */
  lemma {:induction false} NoExpiryTagsKeepState(tags: seq<string>, c: int, l: int)
    requires forall i :: 0 <= i < |tags| ==> !IsExpiryTag(tags[i])
    ensures ParseTagsFrom(tags, c, l) == Ok((c, l))
    decreases |tags|
  {
    if tags != [] {
      NoExpiryTagsKeepState(tags[1..], c, l);
    }
  }

  lemma NoExpiryTagsGiveDefaults(tags: seq<string>, now: int)
    requires forall i :: 0 <= i < |tags| ==> !IsExpiryTag(tags[i])
    ensures ExpiryFromTags(tags, now) == Ok(ExpiryInfo(0, 60, now > 3600))
  {
    NoExpiryTagsKeepState(tags, 0, DEFAULT_LIFETIME);
  }

  /** Tags without the creation prefix leave the creation time alone. */
  lemma {:induction false} NoCreationTagKeepsCreation(tags: seq<string>, c: int, l: int)
    requires forall i :: 0 <= i < |tags| ==> !IsCreationTag(tags[i])
    requires ParseTagsFrom(tags, c, l).Ok?
    ensures ParseTagsFrom(tags, c, l).value.0 == c
    decreases |tags|
  {
    if tags != [] {
      var p := TagStep(tags[0], c, l).value;
      NoCreationTagKeepsCreation(tags[1..], p.0, p.1);
    }
  }

  /** One loop iteration: a successful step continues on the rest of the tags. */
  lemma ParseTagsStep(tags: seq<string>, c: int, l: int)
    requires tags != [] && TagStep(tags[0], c, l).Ok?
    ensures ParseTagsFrom(tags, c, l)
         == ParseTagsFrom(tags[1..], TagStep(tags[0], c, l).value.0, TagStep(tags[0], c, l).value.1)
  {
  }

  lemma NoCreationTagInTail(tags: seq<string>, tail: seq<string>, j: nat)
    requires tags != [] && tail == tags[1..]
    requires forall i :: j < i < |tags| ==> !IsCreationTag(tags[i])
    ensures forall i :: j < i + 1 && 0 <= i < |tail| ==> !IsCreationTag(tail[i])
  {
    forall i | j < i + 1 && 0 <= i < |tail| ensures !IsCreationTag(tail[i]) {
      assert tail[i] == tags[i + 1];
    }
  }

  lemma CreationStepValue(tag: string, n: int, c: int, l: int)
    requires IsCreationTag(tag) && ParseInt(LastSegment(tag, '-')) == Some(n)
    ensures TagStep(tag, c, l) == Ok((n, l))
  {
  }

  /** When several creation tags are present, the last one decides: if the
      tag at index k is the last creation tag, its value is the creation time,
      whatever state the loop starts from. */
  lemma {:induction false} LastCreationTagWins(tags: seq<string>, k: nat, n: int, c: int, l: int)
    requires k < |tags| && IsCreationTag(tags[k])
    requires ParseInt(LastSegment(tags[k], '-')) == Some(n)
    requires forall i :: k < i < |tags| ==> !IsCreationTag(tags[i])
    requires ParseTagsFrom(tags, c, l).Ok?
    ensures ParseTagsFrom(tags, c, l).value.0 == n
    decreases k
  {
    var step := TagStep(tags[0], c, l);
    assert step.Ok?;
    ParseTagsStep(tags, c, l);
    var tail := tags[1..];
    NoCreationTagInTail(tags, tail, k);
    if k == 0 {
      CreationStepValue(tags[0], n, c, l);
      NoCreationTagKeepsCreation(tail, n, l);
    } else {
      assert tail[k - 1] == tags[k];
      LastCreationTagWins(tail, k - 1, n, step.value.0, step.value.1);
    }
  }

  lemma TagPrefixFacts(c: int, m: int)
    ensures IsCreationTag(CreationTag(c)) && !IsLifetimeTag(CreationTag(c))
    ensures IsLifetimeTag(LifetimeTag(m)) && !IsCreationTag(LifetimeTag(m))
    ensures !IsExpiryTag(OWNER_TAG)
  {
    StartsWithAppend(CREATION_PREFIX, IntToString(c));
    StartsWithAppend(LIFETIME_PREFIX, IntToString(m));
    assert CreationTag(c)[5] == 'c';
    assert LifetimeTag(m)[5] == 'l';
  }

  /** The part after the last '-' of prefix + str(v) is the digits of |v|. */
  lemma SegmentOfIntText(prefix: string, v: int)
    requires |prefix| > 0 && prefix[|prefix| - 1] == '-'
    ensures LastSegment(prefix + IntToString(v), '-') == NatToString(if v < 0 then -v else v)
  {
    var digits := NatToString(if v < 0 then -v else v);
    assert '-' !in digits by {
      assert forall i :: 0 <= i < |digits| ==> IsAsciiDigit(digits[i]);
    }
    if v >= 0 {
      LastSegmentAfterSeparator(prefix, digits, '-');
    } else {
      assert prefix + IntToString(v) == (prefix + "-") + digits;
      LastSegmentAfterSeparator(prefix + "-", digits, '-');
    }
  }

  /** The integer after the last '-' of a tag written as prefix + str(v). */
  lemma SegmentValue(prefix: string, v: int)
    requires |prefix| > 0 && prefix[|prefix| - 1] == '-'
    ensures ParseInt(LastSegment(prefix + IntToString(v), '-')) == Some(if v < 0 then -v else v)
  {
    SegmentOfIntText(prefix, v);
    ParseIntOfIntToString(if v < 0 then -v else v);
  }

  lemma CreationTagStep(v: int, c: int, l: int)
    ensures TagStep(CreationTag(v), c, l) == Ok((if v < 0 then -v else v, l))
  {
    TagPrefixFacts(v, 0);
    SegmentValue(CREATION_PREFIX, v);
  }

  lemma LifetimeTagStep(v: int, c: int, l: int)
    ensures TagStep(LifetimeTag(v), c, l) == Ok((c, if v < 0 then -v else v))
  {
    TagPrefixFacts(0, v);
    SegmentValue(LIFETIME_PREFIX, v);
  }

  /** The three spawn tags parse to the magnitudes of the values written. */
  lemma SpawnTagsParse(c: int, m: int)
    ensures ParseTagsFrom(SpawnTags(c, m), 0, DEFAULT_LIFETIME)
         == Ok((if c < 0 then -c else c, if m < 0 then -m else m))
  {
    var c', m' := if c < 0 then -c else c, if m < 0 then -m else m;
    var t1, t2 := CreationTag(c), LifetimeTag(m);
    TagPrefixFacts(c, m);
    CreationTagStep(c, 0, DEFAULT_LIFETIME);
    LifetimeTagStep(m, c', DEFAULT_LIFETIME);
    calc {
      ParseTagsFrom([OWNER_TAG, t1, t2], 0, DEFAULT_LIFETIME);
      { assert [OWNER_TAG, t1, t2][1..] == [t1, t2]; }
      ParseTagsFrom([t1, t2], 0, DEFAULT_LIFETIME);
      { assert [t1, t2][1..] == [t2]; }
      ParseTagsFrom([t2], c', DEFAULT_LIFETIME);
      { assert [t2][1..] == []; }
      ParseTagsFrom([], c', m');
    }
  }

  /** The tags written at spawn parse back to the values written, for
      non-negative integers. */
  lemma SpawnTagsRoundTrip(c: int, m: int)
    requires c >= 0 && m >= 0
    ensures ParseTagsFrom(SpawnTags(c, m), 0, DEFAULT_LIFETIME) == Ok((c, m))
  {
    SpawnTagsParse(c, m);
  }

  /** A negative lifetime is written as "gmab-lifetime--<n>" and, because only
      the last '-' segment is read, parses back as its absolute value. */
  lemma NegativeLifetimeParsesAsMagnitude(c: int, m: int)
    requires c >= 0 && m < 0
    ensures ParseTagsFrom(SpawnTags(c, m), 0, DEFAULT_LIFETIME) == Ok((c, -m))
  {
    SpawnTagsParse(c, m);
  }

  // ---------------------------------------------------------------------
  // list_instances

  const NO_TOKEN: Error := Error(ValueErr, "Linode API key not found in config.")
  const LIST_PREFIX: string := "Failed to list Linode instances: "
  const LIST_STATUS_PREFIX: string := "Failed to list Linodes: "
  const LIST_NETWORK_PREFIX: string := "Network error when listing Linodes: "

  predicate HasOwnerTag(s: Server) { OWNER_TAG in s.tags }

  function OrUnknown(v: Option<string>): string {
    match v
    case Some(x) => x
    case None => UNKNOWN
  }

  /** The record listed for one gmab-tagged server. */
  function ToRecord(s: Server, providerName: Option<string>, now: int): (r: Result<Instance>)
    ensures r.Ok? <==> ExpiryFromTags(s.tags, now).Ok?
    ensures r.Ok? ==>
      var x := ExpiryFromTags(s.tags, now).value;
      && IsListRecord(r.value, now)
      && r.value.provider == providerName
      && r.value.instanceId == IntToString(s.id)
      && r.value.name == s.name
      && r.value.creationTime == x.creationTime && r.value.lifetimeMinutes == x.lifetimeMinutes
      && r.value.status == (if x.expired then s.status + EXPIRED_SUFFIX else s.status)
      && r.value.ip == (if s.ipv4 == [] then NO_IP else s.ipv4[0])
      && r.value.region == (if s.region.Some? then s.region.value else UNKNOWN)
      && r.value.image == (if s.image.Some? then s.image.value else UNKNOWN)
  {
    match ExpiryFromTags(s.tags, now)
    case Err(e) => Err(e)
    case Ok(x) =>
      Ok(Instance(
        providerName,
        IntToString(s.id),
        s.name,
        if s.ipv4 != [] then s.ipv4[0] else NO_IP,
        MarkStatus(s.status, x.expired),
        OrUnknown(s.region),
        OrUnknown(s.image),
        x.creationTime,
        x.lifetimeMinutes,
        Some(x.expired),
        None))
  }

  /** The loop body applied to servers in API order, tagged ones only. */
  function RecordsOf(ss: seq<Server>, providerName: Option<string>, now: int): Result<seq<Instance>>
    decreases |ss|
  {
    if ss == [] then Ok([])
    else
      var last := ss[|ss| - 1];
      match RecordsOf(ss[..|ss| - 1], providerName, now)
      case Err(e) => Err(e)
      case Ok(rs) =>
        if !HasOwnerTag(last) then Ok(rs)
        else
          match ToRecord(last, providerName, now)
          case Err(e) => Err(e)
          case Ok(r) => Ok(rs + [r])
  }

  function Tagged(ss: seq<Server>): (t: seq<Server>)
    ensures forall s :: s in t <==> s in ss && HasOwnerTag(s)
  {
    if ss == [] then []
    else Tagged(ss[..|ss| - 1]) + (if HasOwnerTag(ss[|ss| - 1]) then [ss[|ss| - 1]] else [])
  }

  /** list_instances keeps exactly the gmab-tagged servers, in API order, and
      maps each through ToRecord. */
  lemma {:induction false} RecordsOfTagged(ss: seq<Server>, providerName: Option<string>, now: int)
    requires RecordsOf(ss, providerName, now).Ok?
    ensures var rs := RecordsOf(ss, providerName, now).value;
      && |rs| == |Tagged(ss)|
      && forall i :: 0 <= i < |rs| ==> ToRecord(Tagged(ss)[i], providerName, now) == Ok(rs[i])
    decreases |ss|
  {
    if ss != [] {
      RecordsOfTagged(ss[..|ss| - 1], providerName, now);
    }
  }

  /** list_instances: the token check, then one request. A network failure
      is re-raised with its own prefix, past the generic handler; a rejected
      status and a tag that does not parse both go through the generic
      handler. */
  function ListSpec(cfg: Dict, providerName: Option<string>, world: World, now: int): (r: Result<seq<Instance>>)
    ensures !TruthyAt(cfg, "api_key") ==> r == Err(NO_TOKEN)
    ensures TruthyAt(cfg, "api_key") && world.servers.NetworkError? ==>
      r == Err(Error(Failure, LIST_NETWORK_PREFIX + world.servers.message))
    ensures TruthyAt(cfg, "api_key") && world.servers.BadStatus? ==>
      r == Err(Error(Failure, LIST_PREFIX + LIST_STATUS_PREFIX + world.servers.text))
    ensures TruthyAt(cfg, "api_key") && world.servers.Got? ==>
      && (r.Ok? <==> RecordsOf(world.servers.body, providerName, now).Ok?)
      && (r.Ok? ==> r.value == RecordsOf(world.servers.body, providerName, now).value)
      && (r.Err? ==> r.error == Wrap(LIST_PREFIX, RecordsOf(world.servers.body, providerName, now).error))
  {
    if !TruthyAt(cfg, "api_key") then Err(NO_TOKEN)
    else
      match world.servers
      case NetworkError(m) => Err(Error(Failure, LIST_NETWORK_PREFIX + m))
      case BadStatus(t) => Err(Error(Failure, LIST_PREFIX + LIST_STATUS_PREFIX + t))
      case Got(ss) =>
        match RecordsOf(ss, providerName, now)
        case Err(e) => Err(Wrap(LIST_PREFIX, e))
        case Ok(rs) => Ok(rs)
  }

  function ListCalls(cfg: Dict): seq<Call> {
    if TruthyAt(cfg, "api_key") then [ListServers] else []
  }

  method ListInstances(cfg: Dict, providerName: Option<string>, world: World, now: int)
    returns (r: Result<seq<Instance>>, calls: seq<Call>)
    ensures r == ListSpec(cfg, providerName, world, now)
    ensures calls == ListCalls(cfg)
  {
    if !TruthyAt(cfg, "api_key") {
      return Err(NO_TOKEN), [];
    }
    calls := [ListServers];
    match world.servers {
      case NetworkError(m) =>
        return Err(Error(Failure, LIST_NETWORK_PREFIX + m)), calls;
      case BadStatus(t) =>
        return Err(Error(Failure, LIST_PREFIX + LIST_STATUS_PREFIX + t)), calls;
      case Got(_) =>
    }
    var ss := world.servers.body;
    var result: seq<Instance> := [];
    var i := 0;
    while i < |ss|
      invariant 0 <= i <= |ss|
      invariant RecordsOf(ss[..i], providerName, now) == Ok(result)
    {
      assert ss[..i + 1][..i] == ss[..i];
      var s := ss[i];
      if OWNER_TAG in s.tags {
        var x := GetInstanceExpiryInfo(s.tags, now);
        if x.Err? {
          assert RecordsOf(ss[..i + 1], providerName, now).Err?;
          RecordsErrorPersists(ss, i + 1, providerName, now);
          return Err(Wrap(LIST_PREFIX, x.error)), calls;
        }
        var e := x.value;
        result := result + [Instance(providerName, IntToString(s.id), s.name,
          if s.ipv4 != [] then s.ipv4[0] else NO_IP,
          MarkStatus(s.status, e.expired), OrUnknown(s.region), OrUnknown(s.image),
          e.creationTime, e.lifetimeMinutes, Some(e.expired), None)];
      }
      i := i + 1;
    }
    assert ss[..|ss|] == ss;
    r := Ok(result);
  }

  /** An error in a prefix is the error of the whole listing. */
  lemma {:induction false} RecordsErrorPersists(ss: seq<Server>, k: nat, providerName: Option<string>, now: int)
    requires k <= |ss| && RecordsOf(ss[..k], providerName, now).Err?
    ensures RecordsOf(ss, providerName, now) == RecordsOf(ss[..k], providerName, now)
    decreases |ss| - k
  {
    if k < |ss| {
      assert ss[..k + 1][..k] == ss[..k];
      RecordsErrorPersists(ss, k + 1, providerName, now);
    } else {
      assert ss[..k] == ss;
    }
  }

  /** list_expired_instances: the listing filtered by is_expired. */
  method ListExpiredInstances(cfg: Dict, providerName: Option<string>, world: World, now: int)
    returns (r: Result<seq<Instance>>)
    ensures ListSpec(cfg, providerName, world, now).Err? ==> r == ListSpec(cfg, providerName, world, now)
    ensures ListSpec(cfg, providerName, world, now).Ok? ==> r == Ok(ExpiredOnly(ListSpec(cfg, providerName, world, now).value))
  {
    var listed, _ := ListInstances(cfg, providerName, world, now);
    if listed.Err? {
      return listed;
    }
    r := Ok(ExpiredOnly(listed.value));
  }

  /** A server created by spawn with a non-negative lifetime lists back with the
      creation time and lifetime that were written. */
  lemma SpawnedServerListsBack(s: Server, providerName: Option<string>, c: int, m: int, now: int)
    requires c >= 0 && m >= 0 && s.tags == SpawnTags(c, m)
    ensures HasOwnerTag(s)
    ensures ToRecord(s, providerName, now).Ok?
    ensures ToRecord(s, providerName, now).value.creationTime == c
    ensures ToRecord(s, providerName, now).value.lifetimeMinutes == m
    ensures ToRecord(s, providerName, now).value.isExpired == Some(now - c > m * 60)
  {
    SpawnTagsRoundTrip(c, m);
    assert s.tags[0] == OWNER_TAG;
  }

  // ---------------------------------------------------------------------
  // get_instance_id_by_label and terminate_instance

  method GetInstanceIdByLabel(cfg: Dict, providerName: Option<string>, world: World, now: int, wanted: string)
    returns (r: Result<Option<string>>)
    ensures ListSpec(cfg, providerName, world, now).Err? ==> r == Err(ListSpec(cfg, providerName, world, now).error)
    ensures ListSpec(cfg, providerName, world, now).Ok? ==>
      r == Ok(FirstIdWithLabel(ListSpec(cfg, providerName, world, now).value, wanted))
  {
    var listed, _ := ListInstances(cfg, providerName, world, now);
    if listed.Err? {
      return Err(listed.error);
    }
    var instances := listed.value;
    var i := 0;
    while i < |instances|
      invariant 0 <= i <= |instances|
      invariant FirstIdWithLabel(instances, wanted) == FirstIdWithLabel(instances[i..], wanted)
    {
      assert instances[i..][1..] == instances[i + 1..];
      if instances[i].name == wanted {
        return Ok(Some(instances[i].instanceId));
      }
      i := i + 1;
    }
    r := Ok(None);
  }

  const TERMINATE_PREFIX: string := "Failed to terminate Linode instance: "
  const DELETE_STATUS_PREFIX: string := "Linode deletion failed: "
  const TERMINATE_NETWORK_PREFIX: string := "Network error when terminating Linode: "

  function LabelNotFound(wanted: string): Error {
    Error(Failure, "Instance with label '" + wanted + "' not found or not tagged with 'gmab'.")
  }

  /** terminate_instance: an all-digit identifier is deleted directly; any other
      identifier is resolved through the listing first, and a miss raises
      before any delete request. */
  function TerminateSpec(cfg: Dict, providerName: Option<string>, world: World, now: int, identifier: string)
    : (out: (Result<()>, seq<Call>))
    ensures !TruthyAt(cfg, "api_key") ==> out == (Err(NO_TOKEN), [])
    ensures TruthyAt(cfg, "api_key") && IsDigits(identifier) ==>
      out.1 == [DeleteServer(identifier)]
    ensures TruthyAt(cfg, "api_key") && !IsDigits(identifier) && ListSpec(cfg, providerName, world, now).Err? ==>
      out == (Err(ListSpec(cfg, providerName, world, now).error), [ListServers])
    ensures TruthyAt(cfg, "api_key") && !IsDigits(identifier) && ListSpec(cfg, providerName, world, now).Ok?
            && FirstIdWithLabel(ListSpec(cfg, providerName, world, now).value, identifier).None? ==>
      out == (Err(LabelNotFound(identifier)), [ListServers])
    ensures TruthyAt(cfg, "api_key") && !IsDigits(identifier) && ListSpec(cfg, providerName, world, now).Ok?
            && FirstIdWithLabel(ListSpec(cfg, providerName, world, now).value, identifier).Some? ==>
      out.1 == [ListServers, DeleteServer(FirstIdWithLabel(ListSpec(cfg, providerName, world, now).value, identifier).value)]
    ensures out.0.Ok? <==>
      && TruthyAt(cfg, "api_key") && world.deleted.Got?
      && (|| IsDigits(identifier)
          || (ListSpec(cfg, providerName, world, now).Ok?
              && FirstIdWithLabel(ListSpec(cfg, providerName, world, now).value, identifier).Some?))
    ensures |out.1| > 0 && out.1[|out.1| - 1].DeleteServer? && world.deleted.NetworkError? ==>
      out.0 == Err(Error(Failure, TERMINATE_NETWORK_PREFIX + world.deleted.message))
    ensures |out.1| > 0 && out.1[|out.1| - 1].DeleteServer? && world.deleted.BadStatus? ==>
      out.0 == Err(Error(Failure, TERMINATE_PREFIX + DELETE_STATUS_PREFIX + world.deleted.text))
  {
    if !TruthyAt(cfg, "api_key") then (Err(NO_TOKEN), [])
    else
      var target: Result<(string, seq<Call>)> :=
        if IsDigits(identifier) then Ok((identifier, []))
        else
          match ListSpec(cfg, providerName, world, now)
          case Err(e) => Err(e)
          case Ok(rs) =>
            match FirstIdWithLabel(rs, identifier)
            case None => Err(LabelNotFound(identifier))
            case Some(id) => Ok((id, [ListServers]));
      match target
      case Err(e) => (Err(e), [ListServers])
      case Ok((id, before)) =>
        var calls := before + [DeleteServer(id)];
        match world.deleted
        case NetworkError(m) => (Err(Error(Failure, TERMINATE_NETWORK_PREFIX + m)), calls)
        case BadStatus(t) => (Err(Error(Failure, TERMINATE_PREFIX + DELETE_STATUS_PREFIX + t)), calls)
        case Got(_) => (Ok(()), calls)
  }

  method TerminateInstance(cfg: Dict, providerName: Option<string>, world: World, now: int, identifier: string)
    returns (r: Result<()>, calls: seq<Call>)
    ensures (r, calls) == TerminateSpec(cfg, providerName, world, now, identifier)
  {
    if !TruthyAt(cfg, "api_key") {
      return Err(NO_TOKEN), [];
    }
    var instanceId: string;
    calls := [];
    if !IsDigits(identifier) {
      var found := GetInstanceIdByLabel(cfg, providerName, world, now, identifier);
      calls := [ListServers];
      if found.Err? {
        return Err(found.error), calls;
      }
      if found.value.None? {
        return Err(LabelNotFound(identifier)), calls;
      }
      instanceId := found.value.value;
    } else {
      instanceId := identifier;
    }
    calls := calls + [DeleteServer(instanceId)];
    match world.deleted {
      case NetworkError(m) =>
        r := Err(Error(Failure, TERMINATE_NETWORK_PREFIX + m));
      case BadStatus(t) =>
        r := Err(Error(Failure, TERMINATE_PREFIX + DELETE_STATUS_PREFIX + t));
      case Got(_) =>
        r := Ok(());
    }
  }

  // ---------------------------------------------------------------------
  // spawn_instance

  const CREATE_PREFIX: string := "Failed to create Linode instance: "
  const CREATE_STATUS_PREFIX: string := "Linode creation failed: "
  const CREATE_NETWORK_PREFIX: string := "Network error when creating Linode: "

  function KeyNotFound(path: string): Error {
    Error(FileMissing, "SSH key not found at " + path)
  }

  /** The values spawn_instance settles on before any request. */
  datatype Settings = Settings(
    linodeType: string, image: string, region: string, minutes: int, rootPass: string, keyPath: string)

  /** The fallbacks: image and region fall back to the configured defaults
      only when they are None (an empty string is kept, unlike the other
      adapters), a None lifetime becomes 60, and the key path is chosen with
      `or`. */
  function SpawnSettings(cfg: Dict, image: Option<string>, region: Option<string>,
                         sshKeyPath: Option<string>, lifetime: Option<int>): (st: Settings)
    ensures image.Some? ==> st.image == image.value
    ensures region.Some? ==> st.region == region.value
    ensures image.None? ==> st.image == (if Get(cfg, "default_image").Some? then AsText(Get(cfg, "default_image").value) else "linode/ubuntu22.04")
    ensures region.None? ==> st.region == (if Get(cfg, "default_region").Some? then AsText(Get(cfg, "default_region").value) else "us-east")
    ensures st.linodeType == (if Get(cfg, "default_type").Some? then AsText(Get(cfg, "default_type").value) else "g6-nanode-1")
    ensures !HasKey(cfg, "default_root_pass") ==> st.rootPass == "ChangeMe123!"
    ensures HasKey(cfg, "default_root_pass") ==> st.rootPass == AsText(Get(cfg, "default_root_pass").value)
    ensures st.minutes == (if lifetime.None? then DEFAULT_LIFETIME else lifetime.value)
    ensures st.keyPath == KeyPath(cfg, sshKeyPath)
  {
    Settings(
      AsText(GetOr(cfg, "default_type", JStr("g6-nanode-1"))),
      if image.Some? then image.value else AsText(GetOr(cfg, "default_image", JStr("linode/ubuntu22.04"))),
      if region.Some? then region.value else AsText(GetOr(cfg, "default_region", JStr("us-east"))),
      if lifetime.Some? then lifetime.value else DEFAULT_LIFETIME,
      AsText(GetOr(cfg, "default_root_pass", JStr("ChangeMe123!"))),
      KeyPath(cfg, sshKeyPath))
  }

  function SpawnRequest(st: Settings, key: string, name: string, now: int): CreateRequest {
    CreateRequest(st.linodeType, st.region, st.image, [Strip(key)], st.rootPass, name, SpawnTags(now, st.minutes))
  }

  /** spawn_instance: the token check comes first; a missing key file raises
      FileNotFoundError before the create request; the create request carries
      the settings, the stripped key and the spawn tags; a network failure and
      a rejected status fail with their own prefixes; the record echoes the
      chosen region and image and the generated name. */
  function SpawnSpec(
    cfg: Dict, providerName: Option<string>,
    image: Option<string>, region: Option<string>, sshKeyPath: Option<string>, lifetime: Option<int>,
    now: int, namePicks: seq<nat>, keyFiles: string -> Option<string>, world: World)
    : (out: (Result<Instance>, seq<Call>))
    requires |namePicks| == 12
    ensures !TruthyAt(cfg, "api_key") ==> out == (Err(NO_TOKEN), [])
    ensures TruthyAt(cfg, "api_key") ==> |out.1| > 0 && out.1[0] == ReadKeyFile(SpawnSettings(cfg, image, region, sshKeyPath, lifetime).keyPath)
    ensures var st := SpawnSettings(cfg, image, region, sshKeyPath, lifetime);
      TruthyAt(cfg, "api_key") && keyFiles(st.keyPath).None? ==>
        out == (Err(KeyNotFound(st.keyPath)), [ReadKeyFile(st.keyPath)])
    ensures var st := SpawnSettings(cfg, image, region, sshKeyPath, lifetime);
      TruthyAt(cfg, "api_key") && keyFiles(st.keyPath).Some? ==>
        && |out.1| == 2 && out.1[1].CreateServer?
        && out.1[1].request == SpawnRequest(st, keyFiles(st.keyPath).value, out.1[1].request.name, now)
        && (out.0.Ok? <==> world.created.Got?)
        && (world.created.NetworkError? ==> out.0 == Err(Error(Failure, CREATE_NETWORK_PREFIX + world.created.message)))
        && (world.created.BadStatus? ==> out.0 == Err(Error(Failure, CREATE_PREFIX + CREATE_STATUS_PREFIX + world.created.text)))
    ensures out.0.Ok? ==>
      var r := out.0.value;
      var st := SpawnSettings(cfg, image, region, sshKeyPath, lifetime);
      && IsSpawnRecord(r)
      && r.provider == providerName
      && HasGeneratedShape(r.name, NAME_PREFIX, 12)
      && r.creationTime == now
      && r.lifetimeMinutes == (if lifetime.None? then 60 else lifetime.value)
      && (image.Some? ==> r.image == image.value)
      && (region.Some? ==> r.region == region.value)
      && r.image == st.image && r.region == st.region
      && world.created.Got?
      && r.instanceId == IntToString(world.created.body.id)
      && r.ip == (if world.created.body.ipv4 != [] then world.created.body.ipv4[0] else NO_IP)
      && r.status == world.created.body.status
      && |out.1| == 2 && out.1[1].CreateServer?
      && out.1[1].request.name == r.name
      && out.1[1].request.tags == SpawnTags(now, r.lifetimeMinutes)
  {
    if !TruthyAt(cfg, "api_key") then (Err(NO_TOKEN), [])
    else
      var st := SpawnSettings(cfg, image, region, sshKeyPath, lifetime);
      match keyFiles(st.keyPath)
      case None => (Err(KeyNotFound(st.keyPath)), [ReadKeyFile(st.keyPath)])
      case Some(content) =>
        var name := NAME_PREFIX + RandomString(namePicks);
        GeneratedShape(NAME_PREFIX, namePicks);
        var calls := [ReadKeyFile(st.keyPath), CreateServer(SpawnRequest(st, content, name, now))];
        match world.created
        case NetworkError(m) => (Err(Error(Failure, CREATE_NETWORK_PREFIX + m)), calls)
        case BadStatus(t) => (Err(Error(Failure, CREATE_PREFIX + CREATE_STATUS_PREFIX + t)), calls)
        case Got(c) =>
          (Ok(Instance(providerName, IntToString(c.id), name,
                       if c.ipv4 != [] then c.ipv4[0] else NO_IP,
                       c.status, st.region, st.image, now, st.minutes, None, None)), calls)
  }

  /** What spawn writes, listing reads back: a successful spawn at a
      non-negative time with a non-negative lifetime sends tags that parse to
      exactly the record's creation time and lifetime. */
  lemma SpawnThenParse(
    cfg: Dict, providerName: Option<string>,
    image: Option<string>, region: Option<string>, sshKeyPath: Option<string>, lifetime: Option<int>,
    now: int, namePicks: seq<nat>, keyFiles: string -> Option<string>, world: World)
    requires |namePicks| == 12 && now >= 0 && (lifetime.Some? ==> lifetime.value >= 0)
    requires SpawnSpec(cfg, providerName, image, region, sshKeyPath, lifetime, now, namePicks, keyFiles, world).0.Ok?
    ensures var out := SpawnSpec(cfg, providerName, image, region, sshKeyPath, lifetime, now, namePicks, keyFiles, world);
      ParseTagsFrom(out.1[1].request.tags, 0, DEFAULT_LIFETIME) == Ok((out.0.value.creationTime, out.0.value.lifetimeMinutes))
  {
    var out := SpawnSpec(cfg, providerName, image, region, sshKeyPath, lifetime, now, namePicks, keyFiles, world);
    SpawnTagsRoundTrip(now, out.0.value.lifetimeMinutes);
  }

  // ---------------------------------------------------------------------
  // get_default_config and get_config_prompts

  function DefaultConfig(): Dict {
    [("api_key", JStr("")),
     ("default_region", JStr("nl-ams")),
     ("default_image", JStr("linode/ubuntu22.04")),
     ("default_type", JStr("g6-nanode-1")),
     ("default_root_pass", JStr(""))]
  }

  /** The defaults the configuration prompts offer: the current value of each
      key, else the default configuration's value for it. */
  function PromptDefaults(current: Dict): (p: Dict)
    ensures Keys(p) == Keys(DefaultConfig())
    ensures forall i :: 0 <= i < |p| ==> p[i].1 == GetOr(current, p[i].0, DefaultConfig()[i].1)
  {
    PromptDefaultsFrom(current, DefaultConfig())
  }
}
