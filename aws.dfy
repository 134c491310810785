// The AWS EC2 adapter: lifetime bookkeeping in key/value tags, the listing
// filter and record mapping, label lookup through a tag filter, terminate
// with key-pair cleanup, and spawn with its cleanup branches. The EC2 account
// is a value: its reservations, and the reply each mutating request gets.

module Aws {
  import opened Common
  import opened Base

  /** An EC2 instance as describe_instances reports it. */
  datatype AwsInstance = AwsInstance(
    instanceId: string,
    tags: seq<(string, string)>,     // the "Tags" list of Key/Value pairs, in order
    state: string,                   // State.Name
    publicIp: Option<string>,        // PublicIpAddress, when assigned
    availabilityZone: string,        // Placement.AvailabilityZone
    imageId: string,
    keyName: Option<string>)

  /** A describe_instances request. `name` adds the "tag:Name" filter. */
  datatype Filter = Filter(name: Option<string>)

  datatype RunRequest = RunRequest(
    image: string, instanceType: string, keyName: string, tags: seq<(string, string)>)

  datatype Call =
    | ReadKeyFile(path: string)
    | SetupNetwork                   // VPC, security group and subnet lookups or creation
    | ImportKeyPair(keyName: string, material: string)
    | RunInstances(request: RunRequest)
    | WaitAndDescribe(id: string)    // the waiter and the describe after launch
    | DescribeFiltered(filter: Filter)
    | DescribeById(id: string)
    | DeleteKeyPair(keyName: string)
    | TerminateInstances(id: string)

  /** The account and the replies of one command. `launched` is the reply to
      `run_instances` (the new instance's id); `details` is the state name
      and public address once it runs. */
  datatype World = World(
    inventory: Result<seq<seq<AwsInstance>>>,
    network: Result<()>,
    imported: Result<()>,
    launched: Result<string>,
    details: Result<(string, Option<string>)>,
    keyDeleted: Result<()>,
    terminated: Result<()>)

  const OWNER_KEY: string := "gmab"
  const NAME_KEY: string := "Name"
  const NAME_PREFIX: string := "gmab-"
  const KEY_PREFIX: string := "gmab-key-"
  const LIVE_STATES: seq<string> := ["pending", "running", "stopping", "stopped"]

  // ---------------------------------------------------------------------
  // Tags

  predicate HasTag(tags: seq<(string, string)>, key: string, value: string) {
    exists i :: 0 <= i < |tags| && tags[i] == (key, value)
  }

  /** `next((t['Value'] for t in tags if t['Key'] == key), default)`: the first. */
  function FirstTagValue(tags: seq<(string, string)>, key: string, default: string): string {
    if tags == [] then default
    else if tags[0].0 == key then tags[0].1
    else FirstTagValue(tags[1..], key, default)
  }

  /** Without a tag of that key the default is taken; otherwise the value of
      the first tag with it. */
  lemma {:induction false} FirstTagValueSpec(tags: seq<(string, string)>, key: string, default: string)
    ensures var r := FirstTagValue(tags, key, default);
      && ((forall i :: 0 <= i < |tags| ==> tags[i].0 != key) ==> r == default)
      && ((exists i :: 0 <= i < |tags| && tags[i].0 == key) ==>
            exists i :: 0 <= i < |tags| && tags[i] == (key, r) && forall j :: 0 <= j < i ==> tags[j].0 != key)
    decreases |tags|
  {
    if tags != [] && tags[0].0 != key {
      var rest := tags[1..];
      FirstTagValueSpec(rest, key, default);
      var r := FirstTagValue(rest, key, default);
      assert forall i :: 0 <= i < |rest| ==> rest[i] == tags[i + 1];
      if exists i :: 0 <= i < |tags| && tags[i].0 == key {
        var i0 :| 0 <= i0 < |tags| && tags[i0].0 == key;
        assert rest[i0 - 1].0 == key;
        var i :| 0 <= i < |rest| && rest[i] == (key, r) && forall j :: 0 <= j < i ==> rest[j].0 != key;
        assert tags[i + 1] == (key, r);
        assert forall j :: 1 <= j < i + 1 ==> tags[j] == rest[j - 1];
      }
    } else if tags != [] {
      assert tags[0] == (key, tags[0].1);
    }
  }

  /** The tags run_instances writes. */
  function SpawnTags(name: string, creationTime: int, lifetimeMinutes: int): seq<(string, string)> {
    [(NAME_KEY, name), (OWNER_KEY, "true"),
     (CREATION_KEY, IntToString(creationTime)), (LIFETIME_KEY, IntToString(lifetimeMinutes))]
  }

  /** The spawn tags parse back to the values written, for every integer. */
  lemma SpawnTagsRoundTrip(name: string, c: int, m: int, now: int)
    ensures ExpiryFromPairs(SpawnTags(name, c, m), now) == Ok(MakeExpiry(c, m, now))
    ensures FirstTagValue(SpawnTags(name, c, m), NAME_KEY, UNKNOWN) == name
    ensures HasTag(SpawnTags(name, c, m), OWNER_KEY, "true") && HasTag(SpawnTags(name, c, m), NAME_KEY, name)
  {
    var t := SpawnTags(name, c, m);
    assert t[1] == (OWNER_KEY, "true");
    assert t[0] == (NAME_KEY, name);
    assert t[..3][..2][..1] == [(NAME_KEY, name)];
    assert LastValue(t, CREATION_KEY) == Some(IntToString(c)) by {
      assert t[..3] == [(NAME_KEY, name), (OWNER_KEY, "true"), (CREATION_KEY, IntToString(c))];
    }
    assert LastValue(t, LIFETIME_KEY) == Some(IntToString(m));
    ParseIntOfIntToString(c);
    ParseIntOfIntToString(m);
  }

  // ---------------------------------------------------------------------
  // describe_instances filters

  predicate Matches(x: AwsInstance, f: Filter) {
    && HasTag(x.tags, OWNER_KEY, "true")
    && x.state in LIVE_STATES
    && (f.name.Some? ==> HasTag(x.tags, NAME_KEY, f.name.value))
  }

  function FilterInstances(xs: seq<AwsInstance>, f: Filter): (r: seq<AwsInstance>)
    ensures forall x :: x in r <==> x in xs && Matches(x, f)
  {
    if xs == [] then []
    else FilterInstances(xs[..|xs| - 1], f) + (if Matches(xs[|xs| - 1], f) then [xs[|xs| - 1]] else [])
  }

  lemma {:induction false} FilterAppend(a: seq<AwsInstance>, b: seq<AwsInstance>, f: Filter)
    ensures FilterInstances(a + b, f) == FilterInstances(a, f) + FilterInstances(b, f)
    decreases |b|
  {
    if b == [] {
      assert a + b == a;
    } else {
      var b' := b[..|b| - 1];
      assert (a + b)[..|a + b| - 1] == a + b';
      FilterAppend(a, b', f);
    }
  }

  /** The reservations in order, each reduced to its matching instances. */
  function Select(inv: seq<seq<AwsInstance>>, f: Filter): (r: seq<seq<AwsInstance>>)
    ensures |r| == |inv| && forall i :: 0 <= i < |inv| ==> r[i] == FilterInstances(inv[i], f)
  {
    seq(|inv|, i requires 0 <= i < |inv| => FilterInstances(inv[i], f))
  }

  /** The instances of all reservations, in order. */
  function Flatten(rs: seq<seq<AwsInstance>>): seq<AwsInstance> {
    if rs == [] then [] else Flatten(rs[..|rs| - 1]) + rs[|rs| - 1]
  }

  /** Filtering reservation by reservation is filtering the whole account. */
  lemma {:induction false} FlattenSelect(inv: seq<seq<AwsInstance>>, f: Filter)
    ensures Flatten(Select(inv, f)) == FilterInstances(Flatten(inv), f)
    decreases |inv|
  {
    if inv != [] {
      var init := inv[..|inv| - 1];
      assert Select(inv, f)[..|inv| - 1] == Select(init, f);
      FlattenSelect(init, f);
      FilterAppend(Flatten(init), inv[|inv| - 1], f);
    }
  }

  // ---------------------------------------------------------------------
  // list_instances and list_expired_instances

  const LIST_PREFIX: string := "Failed to list AWS instances: "
  const LIST_FILTER: Filter := Filter(None)

  /** `zone[:-1]`. */
  function DropLast(s: string): (r: string)
    ensures |s| > 0 ==> r + [s[|s| - 1]] == s
    ensures |s| == 0 ==> r == ""
  {
    if |s| == 0 then "" else s[..|s| - 1]
  }

  function OrNoIp(ip: Option<string>): string {
    match ip
    case Some(a) => a
    case None => NO_IP
  }

  /** One listed record: the instance's fields, the Name tag, the zone without
      its letter, and the expiry read from the tags. */
  function ToRecord(x: AwsInstance, providerName: Option<string>, now: int): (r: Result<Instance>)
    ensures r.Ok? <==> ExpiryFromPairs(x.tags, now).Ok?
  {
    match ExpiryFromPairs(x.tags, now)
    case Err(err) => Err(err)
    case Ok(e) =>
      Ok(Instance(providerName, x.instanceId, FirstTagValue(x.tags, NAME_KEY, UNKNOWN), OrNoIp(x.publicIp),
                  MarkStatus(x.state, e.expired), DropLast(x.availabilityZone), x.imageId,
                  e.creationTime, e.lifetimeMinutes, Some(e.expired), None))
  }

  lemma ToRecordFields(x: AwsInstance, providerName: Option<string>, now: int)
    requires ToRecord(x, providerName, now).Ok?
    ensures var r := ToRecord(x, providerName, now).value;
      var e := ExpiryFromPairs(x.tags, now).value;
      && IsListRecord(r, now)
      && r.provider == providerName
      && r.instanceId == x.instanceId
      && r.name == FirstTagValue(x.tags, NAME_KEY, UNKNOWN)
      && r.creationTime == e.creationTime && r.lifetimeMinutes == e.lifetimeMinutes
      && r.status == (if e.expired then x.state + EXPIRED_SUFFIX else x.state)
      && r.ip == (if x.publicIp.None? then NO_IP else x.publicIp.value)
      && (|x.availabilityZone| > 0 ==> r.region + [x.availabilityZone[|x.availabilityZone| - 1]] == x.availabilityZone)
      && r.image == x.imageId
  {
  }

  /** The record of each listed instance. */
  function Recorder(providerName: Option<string>, now: int): AwsInstance -> Result<Instance> {
    x => ToRecord(x, providerName, now)
  }

  /** The loop body applied to the listed instances in order. */
  function RecordsOf(xs: seq<AwsInstance>, providerName: Option<string>, now: int): Result<seq<Instance>> {
    MapRecords(xs, Recorder(providerName, now))
  }

  /** A successful listing maps every instance, one record each, in order. */
  lemma RecordsOfEach(xs: seq<AwsInstance>, providerName: Option<string>, now: int)
    requires RecordsOf(xs, providerName, now).Ok?
    ensures var rs := RecordsOf(xs, providerName, now).value;
      |rs| == |xs| && forall i :: 0 <= i < |xs| ==> ToRecord(xs[i], providerName, now) == Ok(rs[i])
  {
    MapRecordsEach(xs, Recorder(providerName, now));
  }

  function ListSpec(providerName: Option<string>, world: World, now: int): (r: Result<seq<Instance>>)
    ensures r.Err? ==> StartsWith(r.error.message, LIST_PREFIX)
  {
    match world.inventory
    case Err(e) => Err(Wrap(LIST_PREFIX, e))
    case Ok(inv) =>
      match RecordsOf(Flatten(Select(inv, LIST_FILTER)), providerName, now)
      case Err(e) => Err(Wrap(LIST_PREFIX, e))
      case Ok(rs) => Ok(rs)
  }

  /** list_instances lists exactly the gmab-tagged instances in a live state,
      in the account's order, one record each. */
  lemma ListedAreTaggedAndLive(providerName: Option<string>, world: World, now: int)
    requires ListSpec(providerName, world, now).Ok?
    ensures var rs := ListSpec(providerName, world, now).value;
      var xs := FilterInstances(Flatten(world.inventory.value), LIST_FILTER);
      && |rs| == |xs|
      && forall i :: 0 <= i < |rs| ==>
           && ToRecord(xs[i], providerName, now) == Ok(rs[i])
           && HasTag(xs[i].tags, OWNER_KEY, "true") && xs[i].state in LIVE_STATES
  {
    var inv := world.inventory.value;
    FlattenSelect(inv, LIST_FILTER);
    RecordsOfEach(Flatten(Select(inv, LIST_FILTER)), providerName, now);
    var xs := FilterInstances(Flatten(inv), LIST_FILTER);
    assert forall i :: 0 <= i < |xs| ==> xs[i] in xs;
  }

  /** With the account listed, list_instances reports the records of the
      selected instances, or the first record error, wrapped. */
  lemma ListSpecOfInventory(providerName: Option<string>, world: World, now: int)
    requires world.inventory.Ok?
    ensures var recs := RecordsOf(Flatten(Select(world.inventory.value, LIST_FILTER)), providerName, now);
      && (recs.Err? ==> ListSpec(providerName, world, now) == Err(Wrap(LIST_PREFIX, recs.error)))
      && (recs.Ok? ==> ListSpec(providerName, world, now) == recs)
  {
  }

  method ListInstances(providerName: Option<string>, world: World, now: int)
    returns (r: Result<seq<Instance>>, calls: seq<Call>)
    ensures r == ListSpec(providerName, world, now)
    ensures calls == [DescribeFiltered(LIST_FILTER)]
  {
    calls := [DescribeFiltered(LIST_FILTER)];
    if world.inventory.Err? {
      return Err(Wrap(LIST_PREFIX, world.inventory.error)), calls;
    }
    ListSpecOfInventory(providerName, world, now);
    var records := RecordReservations(Select(world.inventory.value, LIST_FILTER), providerName, now);
    if records.Err? {
      return Err(Wrap(LIST_PREFIX, records.error)), calls;
    }
    r := records;
  }

  /** The loops of list_instances: every instance of every reservation, in
      order, mapped to its record; the first failing record ends the loops. */
  method RecordReservations(reservations: seq<seq<AwsInstance>>, providerName: Option<string>, now: int)
    returns (r: Result<seq<Instance>>)
    ensures r == RecordsOf(Flatten(reservations), providerName, now)
  {
    var instances: seq<Instance> := [];
    var done: seq<AwsInstance> := [];
    var i := 0;
    assert reservations[..0] == [];
    while i < |reservations|
      invariant 0 <= i <= |reservations|
      invariant done == Flatten(reservations[..i])
      invariant RecordsOf(done, providerName, now) == Ok(instances)
    {
      FlattenStep(reservations, i);
      var batch := RecordBatch(done, reservations[i], instances, providerName, now);
      done := done + reservations[i];
      if batch.Err? {
        RecordsPrefixError(reservations, i + 1, providerName, now);
        return batch;
      }
      instances := batch.value;
      i := i + 1;
    }
    assert reservations[..|reservations|] == reservations;
    r := Ok(instances);
  }

  /** The inner loop of list_instances: the records of one reservation's
      instances appended to those collected so far. */
  method RecordBatch(done: seq<AwsInstance>, batch: seq<AwsInstance>, instances: seq<Instance>,
                     providerName: Option<string>, now: int)
    returns (r: Result<seq<Instance>>)
    requires RecordsOf(done, providerName, now) == Ok(instances)
    ensures r == RecordsOf(done + batch, providerName, now)
  {
    var acc := instances;
    assert done + batch[..0] == done;
    var j := 0;
    while j < |batch|
      invariant 0 <= j <= |batch|
      invariant RecordsOf(done + batch[..j], providerName, now) == Ok(acc)
    {
      BatchStep(done, batch, j, providerName, now);
      var record := ToRecord(batch[j], providerName, now);
      if record.Err? {
        return Err(record.error);
      }
      acc := acc + [record.value];
      j := j + 1;
    }
    assert done + batch[..|batch|] == done + batch by {
      assert batch[..|batch|] == batch;
    }
    r := Ok(acc);
  }

  /** One step of the inner loop: a failing record fails the whole batch,
      a good one extends the records by one. */
  lemma BatchStep(done: seq<AwsInstance>, batch: seq<AwsInstance>, j: nat, providerName: Option<string>, now: int)
    requires j < |batch| && RecordsOf(done + batch[..j], providerName, now).Ok?
    ensures ToRecord(batch[j], providerName, now).Err? ==>
      RecordsOf(done + batch, providerName, now) == Err(ToRecord(batch[j], providerName, now).error)
    ensures ToRecord(batch[j], providerName, now).Ok? ==>
      RecordsOf(done + batch[..j + 1], providerName, now)
        == Ok(RecordsOf(done + batch[..j], providerName, now).value + [ToRecord(batch[j], providerName, now).value])
  {
    TakeOneMore(done, batch, j);
    MapRecordsSnoc(done + batch[..j], batch[j], Recorder(providerName, now));
    if ToRecord(batch[j], providerName, now).Err? {
      var seen := done + batch[..j + 1];
      var k := |done| + (j + 1);
      PrefixOfAppend(done, batch, j + 1);
      assert (done + batch)[..k] == seen;
      MapRecordsErrorPersists(done + batch, k, Recorder(providerName, now));
    }
  }

  lemma FlattenStep(rs: seq<seq<AwsInstance>>, i: nat)
    requires i < |rs|
    ensures Flatten(rs[..i + 1]) == Flatten(rs[..i]) + rs[i]
  {
    assert rs[..i + 1][..i] == rs[..i];
  }

  /** An error on the instances of the first k reservations is the error of
      the whole listing. */
  lemma {:induction false} RecordsPrefixError(rs: seq<seq<AwsInstance>>, k: nat, providerName: Option<string>, now: int)
    requires k <= |rs| && RecordsOf(Flatten(rs[..k]), providerName, now).Err?
    ensures RecordsOf(Flatten(rs), providerName, now) == RecordsOf(Flatten(rs[..k]), providerName, now)
    decreases |rs| - k
  {
    if k < |rs| {
      var a := Flatten(rs[..k]);
      FlattenStep(rs, k);
      assert (a + rs[k])[..|a|] == a;
      MapRecordsErrorPersists(a + rs[k], |a|, Recorder(providerName, now));
      RecordsPrefixError(rs, k + 1, providerName, now);
    } else {
      assert rs[..k] == rs;
    }
  }

  /** list_expired_instances: the listing filtered by is_expired. */
  method ListExpiredInstances(providerName: Option<string>, world: World, now: int)
    returns (r: Result<seq<Instance>>)
    ensures ListSpec(providerName, world, now).Err? ==> r == ListSpec(providerName, world, now)
    ensures ListSpec(providerName, world, now).Ok? ==> r == Ok(ExpiredOnly(ListSpec(providerName, world, now).value))
  {
    var listed, _ := ListInstances(providerName, world, now);
    if listed.Err? {
      return listed;
    }
    r := Ok(ExpiredOnly(listed.value));
  }

  // ---------------------------------------------------------------------
  // get_instance_id_by_label

  function LabelFilter(wanted: string): Filter { Filter(Some(wanted)) }

  /** The first instance of the filtered reply; any error reads as None. */
  function LookupSpec(world: World, wanted: string): (r: Option<string>)
    ensures world.inventory.Err? ==> r.None?
    ensures world.inventory.Ok? ==>
      var ms := FilterInstances(Flatten(world.inventory.value), LabelFilter(wanted));
      && (r.None? <==> ms == [])
      && (r.Some? ==> r.value == ms[0].instanceId)
  {
    match world.inventory
    case Err(_) => None
    case Ok(inv) =>
      FlattenSelect(inv, LabelFilter(wanted));
      var ms := Flatten(Select(inv, LabelFilter(wanted)));
      if ms == [] then None else Some(ms[0].instanceId)
  }

  /** A label found is a live gmab-tagged instance carrying that Name tag. */
  lemma LookupFindsTaggedName(world: World, wanted: string)
    requires LookupSpec(world, wanted).Some?
    ensures exists x :: && x in Flatten(world.inventory.value)
                        && x.instanceId == LookupSpec(world, wanted).value
                        && HasTag(x.tags, NAME_KEY, wanted) && HasTag(x.tags, OWNER_KEY, "true")
                        && x.state in LIVE_STATES
  {
    var ms := FilterInstances(Flatten(world.inventory.value), LabelFilter(wanted));
    assert ms[0] in ms;
  }

  method GetInstanceIdByLabel(world: World, wanted: string) returns (r: Option<string>)
    ensures r == LookupSpec(world, wanted)
  {
    if world.inventory.Err? {
      return None;
    }
    var reservations := Select(world.inventory.value, LabelFilter(wanted));
    var i := 0;
    while i < |reservations|
      invariant 0 <= i <= |reservations|
      invariant Flatten(reservations[..i]) == []
    {
      assert reservations[..i + 1][..i] == reservations[..i];
      assert Flatten(reservations[..i + 1]) == reservations[i];
      if |reservations[i]| > 0 {
        FlattenPrefix(reservations, i + 1);
        return Some(reservations[i][0].instanceId);
      }
      i := i + 1;
    }
    assert reservations[..|reservations|] == reservations;
    r := None;
  }

  /** The instances of the first k reservations begin the flattened sequence. */
  lemma {:induction false} FlattenPrefix(rs: seq<seq<AwsInstance>>, k: nat)
    requires k <= |rs|
    ensures |Flatten(rs[..k])| <= |Flatten(rs)| && Flatten(rs)[..|Flatten(rs[..k])|] == Flatten(rs[..k])
    decreases |rs| - k
  {
    if k < |rs| {
      assert rs[..k + 1][..k] == rs[..k];
      FlattenPrefix(rs, k + 1);
      var a := Flatten(rs[..k]);
      assert Flatten(rs[..k + 1]) == a + rs[k];
      assert (a + rs[k])[..|a|] == a;
    } else {
      assert rs[..k] == rs;
    }
  }

  // ---------------------------------------------------------------------
  // terminate_instance

  const TERMINATE_PREFIX: string := "Failed to terminate AWS instance: "
  const ID_NOT_FOUND: Error := Error(Failure, "InvalidInstanceID.NotFound")

  function NoLabelMatch(wanted: string): Error {
    Error(Failure, "No instance found with label '" + wanted + "'")
  }

  function FindById(xs: seq<AwsInstance>, id: string): (r: Option<AwsInstance>)
    ensures r.Some? ==> r.value in xs && r.value.instanceId == id
    ensures r.None? ==> forall i :: 0 <= i < |xs| ==> xs[i].instanceId != id
  {
    if xs == [] then None
    else if xs[0].instanceId == id then Some(xs[0])
    else
      var r := FindById(xs[1..], id);
      assert r.None? ==> forall i :: 0 <= i < |xs| ==> xs[i].instanceId != id by {
        if r.None? {
          forall i | 0 <= i < |xs| ensures xs[i].instanceId != id {
            if i > 0 { assert xs[i] == xs[1..][i - 1]; }
          }
        }
      }
      r
  }

  /** The cleanup rule: only a key pair named "gmab-key-..." is removed. */
  predicate OwnsKeyPair(keyName: Option<string>) {
    keyName.Some? && keyName.value != "" && StartsWith(keyName.value, KEY_PREFIX)
  }

  /** describe, key cleanup (best effort) and terminate of a known id. */
  function TerminateById(world: World, id: string): (Result<()>, seq<Call>) {
    match world.inventory
    case Err(e) => (Err(Wrap(TERMINATE_PREFIX, e)), [DescribeById(id)])
    case Ok(inv) =>
      match FindById(Flatten(inv), id)
      case None => (Err(Wrap(TERMINATE_PREFIX, ID_NOT_FOUND)), [DescribeById(id)])
      case Some(x) =>
        var cleanup := if OwnsKeyPair(x.keyName) then [DeleteKeyPair(x.keyName.value)] else [];
        var calls := [DescribeById(id)] + cleanup + [TerminateInstances(id)];
        match world.terminated
        case Err(e) => (Err(Wrap(TERMINATE_PREFIX, e)), calls)
        case Ok(_) => (Ok(()), calls)
  }

  /** The id terminate_instance works on: an "i-" identifier itself, any
      other the result of the Name-tag lookup. */
  function ResolvedId(world: World, identifier: string): Option<string> {
    if StartsWith(identifier, "i-") then Some(identifier) else LookupSpec(world, identifier)
  }

  /** The id resolves and describe_instances finds it in the account. */
  predicate Described(world: World, identifier: string) {
    && ResolvedId(world, identifier).Some?
    && world.inventory.Ok?
    && FindById(Flatten(world.inventory.value), ResolvedId(world, identifier).value).Some?
  }

  /** The instance describe_instances returns for the resolved id. */
  function DescribedInstance(world: World, identifier: string): AwsInstance
    requires Described(world, identifier)
  {
    FindById(Flatten(world.inventory.value), ResolvedId(world, identifier).value).value
  }

  /** terminate_instance: an "i-" identifier is used directly; any other is
      resolved through the Name-tag lookup, and a miss fails before any
      describe or terminate request. The resolved instance is terminated by
      the last request, after its "gmab-key-" key pair, if it owns one, is
      deleted; the result is Ok exactly when the instance is described and
      the terminate request succeeds. */
  function TerminateSpec(world: World, identifier: string): (out: (Result<()>, seq<Call>))
    ensures out.0.Err? ==> StartsWith(out.0.error.message, TERMINATE_PREFIX)
    ensures StartsWith(identifier, "i-") ==> |out.1| > 0 && out.1[0] == DescribeById(identifier)
    ensures !StartsWith(identifier, "i-") && LookupSpec(world, identifier).None? ==>
      out == (Err(Wrap(TERMINATE_PREFIX, NoLabelMatch(identifier))), [DescribeFiltered(LabelFilter(identifier))])
    ensures !StartsWith(identifier, "i-") && LookupSpec(world, identifier).Some? ==>
      |out.1| > 1 && out.1[..2] == [DescribeFiltered(LabelFilter(identifier)), DescribeById(LookupSpec(world, identifier).value)]
    ensures forall i :: 0 <= i < |out.1| && out.1[i].DeleteKeyPair? ==> StartsWith(out.1[i].keyName, KEY_PREFIX)
    ensures out.0.Ok? <==> Described(world, identifier) && world.terminated.Ok?
    ensures Described(world, identifier) ==>
      |out.1| > 0 && out.1[|out.1| - 1] == TerminateInstances(ResolvedId(world, identifier).value)
    ensures !Described(world, identifier) ==> forall i :: 0 <= i < |out.1| ==> !out.1[i].TerminateInstances?
    ensures Described(world, identifier) && OwnsKeyPair(DescribedInstance(world, identifier).keyName) ==>
      DeleteKeyPair(DescribedInstance(world, identifier).keyName.value) in out.1
    ensures forall i :: 0 <= i < |out.1| && out.1[i].DeleteKeyPair? ==>
      && Described(world, identifier)
      && OwnsKeyPair(DescribedInstance(world, identifier).keyName)
      && out.1[i].keyName == DescribedInstance(world, identifier).keyName.value
  {
    if StartsWith(identifier, "i-") then TerminateById(world, identifier)
    else
      match LookupSpec(world, identifier)
      case None => (Err(Wrap(TERMINATE_PREFIX, NoLabelMatch(identifier))), [DescribeFiltered(LabelFilter(identifier))])
      case Some(id) =>
        var rest := TerminateById(world, id);
        (rest.0, [DescribeFiltered(LabelFilter(identifier))] + rest.1)
  }

  /** A failed key-pair deletion is ignored: the reply to it changes nothing,
      and the instance is still terminated. */
  lemma KeyDeletionFailureIgnored(world: World, identifier: string, reply: Result<()>)
    ensures TerminateSpec(world.(keyDeleted := reply), identifier) == TerminateSpec(world, identifier)
  {
  }

  method TerminateInstance(world: World, identifier: string) returns (r: Result<()>, calls: seq<Call>)
    ensures (r, calls) == TerminateSpec(world, identifier)
  {
    calls := [];
    var instanceId: string;
    if !StartsWith(identifier, "i-") {
      var found := GetInstanceIdByLabel(world, identifier);
      calls := [DescribeFiltered(LabelFilter(identifier))];
      if found.None? {
        return Err(Wrap(TERMINATE_PREFIX, NoLabelMatch(identifier))), calls;
      }
      instanceId := found.value;
      assert LookupSpec(world, identifier) == Some(instanceId);
    } else {
      instanceId := identifier;
      assert [] + TerminateById(world, instanceId).1 == TerminateById(world, instanceId).1;
    }
    ghost var before := calls;
    ghost var rest := TerminateById(world, instanceId);
    assert TerminateSpec(world, identifier) == (rest.0, before + rest.1);
    calls := calls + [DescribeById(instanceId)];
    if world.inventory.Err? {
      assert rest == (Err(Wrap(TERMINATE_PREFIX, world.inventory.error)), [DescribeById(instanceId)]);
      return Err(Wrap(TERMINATE_PREFIX, world.inventory.error)), calls;
    }
    var described := FindById(Flatten(world.inventory.value), instanceId);
    if described.None? {
      assert rest == (Err(Wrap(TERMINATE_PREFIX, ID_NOT_FOUND)), [DescribeById(instanceId)]);
      return Err(Wrap(TERMINATE_PREFIX, ID_NOT_FOUND)), calls;
    }
    var keyName := described.value.keyName;
    var cleanup: seq<Call> := [];
    if keyName.Some? && keyName.value != "" && StartsWith(keyName.value, KEY_PREFIX) {
      cleanup := [DeleteKeyPair(keyName.value)];
      calls := calls + cleanup;
      // the reply is ignored either way
    }
    calls := calls + [TerminateInstances(instanceId)];
    assert rest.1 == [DescribeById(instanceId)] + cleanup + [TerminateInstances(instanceId)];
    assert calls == before + rest.1;
    if world.terminated.Err? {
      return Err(Wrap(TERMINATE_PREFIX, world.terminated.error)), calls;
    }
    r := Ok(());
  }

  // ---------------------------------------------------------------------
  // spawn_instance

  const IMPORT_PREFIX: string := "Failed to import SSH key to AWS: "
  const LAUNCH_PREFIX: string := "Failed to launch AWS instance: "
  const DETAILS_PREFIX: string := "Failed to get instance details: "

  datatype Settings = Settings(
    region: string, image: string, instanceType: string, minutes: int, keyPath: string)

  /** Region and image: the argument, else the configured default, else the
      built-in one, chosen with `or`; a None lifetime becomes 60. */
  function SpawnSettings(cfg: Dict, image: Option<string>, region: Option<string>,
                         sshKeyPath: Option<string>, lifetime: Option<int>): (st: Settings)
    ensures region.Some? && region.value != "" ==> st.region == region.value
    ensures (region.None? || region.value == "") && !HasKey(cfg, "default_region") ==> st.region == "us-east-1"
    ensures image.Some? && image.value != "" ==> st.image == image.value
    ensures (image.None? || image.value == "") && !HasKey(cfg, "default_image") ==> st.image == "ami-0574da719dca65348"
    ensures !HasKey(cfg, "default_type") ==> st.instanceType == "t2.micro"
    ensures (region.None? || region.value == "") && Get(cfg, "default_region").Some? ==>
      st.region == AsText(Get(cfg, "default_region").value)
    ensures (image.None? || image.value == "") && Get(cfg, "default_image").Some? ==>
      st.image == AsText(Get(cfg, "default_image").value)
    ensures Get(cfg, "default_type").Some? ==> st.instanceType == AsText(Get(cfg, "default_type").value)
    ensures st.minutes == (if lifetime.None? then DEFAULT_LIFETIME else lifetime.value)
    ensures st.keyPath == KeyPath(cfg, sshKeyPath)
  {
    Settings(
      OrText(region, AsText(GetOr(cfg, "default_region", JStr("us-east-1")))),
      OrText(image, AsText(GetOr(cfg, "default_image", JStr("ami-0574da719dca65348")))),
      AsText(GetOr(cfg, "default_type", JStr("t2.micro"))),
      if lifetime.Some? then lifetime.value else DEFAULT_LIFETIME,
      KeyPath(cfg, sshKeyPath))
  }

  /** From run_instances on: a failed launch removes the imported key pair; a
      failure once the instance exists terminates it and then removes the key
      pair, unless the terminate request itself fails. */
  function LaunchStage(providerName: Option<string>, st: Settings, name: string, keyName: string,
                       now: int, world: World): (out: (Result<Instance>, seq<Call>))
    ensures |out.1| >= 1
    ensures out.1[0] == RunInstances(RunRequest(st.image, st.instanceType, keyName, SpawnTags(name, now, st.minutes)))
    ensures world.launched.Err? ==>
      out == (Err(Wrap(LAUNCH_PREFIX, world.launched.error)), [out.1[0], DeleteKeyPair(keyName)])
    ensures world.launched.Ok? && world.details.Err? ==>
      && out.0 == Err(Wrap(DETAILS_PREFIX, world.details.error))
      && out.1[1..] == [WaitAndDescribe(world.launched.value), TerminateInstances(world.launched.value)]
                       + (if world.terminated.Ok? then [DeleteKeyPair(keyName)] else [])
    ensures out.0.Ok? ==>
      && world.launched.Ok? && world.details.Ok?
      && out.0.value == Instance(providerName, world.launched.value, name, OrNoIp(world.details.value.1),
                                 world.details.value.0, st.region, st.image, now, st.minutes, None, None)
      && out.1[1..] == [WaitAndDescribe(world.launched.value)]
  {
    var run := RunInstances(RunRequest(st.image, st.instanceType, keyName, SpawnTags(name, now, st.minutes)));
    match world.launched
    case Err(e) => (Err(Wrap(LAUNCH_PREFIX, e)), [run, DeleteKeyPair(keyName)])
    case Ok(id) =>
      match world.details
      case Err(e) =>
        var cleanup := [TerminateInstances(id)] + (if world.terminated.Ok? then [DeleteKeyPair(keyName)] else []);
        (Err(Wrap(DETAILS_PREFIX, e)), [run, WaitAndDescribe(id)] + cleanup)
      case Ok((status, ip)) =>
        (Ok(Instance(providerName, id, name, OrNoIp(ip), status, st.region, st.image, now, st.minutes, None, None)),
         [run, WaitAndDescribe(id)])
  }

  /** A lost instance is terminated, and its key pair removed only after a
      successful terminate. */
  lemma LaunchDetailsFailure(providerName: Option<string>, st: Settings, name: string, keyName: string,
                             now: int, world: World)
    requires world.launched.Ok? && world.details.Err?
    ensures var out := LaunchStage(providerName, st, name, keyName, now, world);
      && |out.1| >= 3 && out.1[2] == TerminateInstances(world.launched.value)
      && (world.terminated.Ok? <==> out.1[|out.1| - 1] == DeleteKeyPair(keyName))
  {
  }

  /** run_instances, the wait for the running state, and the cleanup of a
      failed launch, as the tail of spawn_instance performs them. */
  method LaunchInstance(providerName: Option<string>, st: Settings, name: string, keyName: string,
                        now: int, world: World)
    returns (r: Result<Instance>, calls: seq<Call>)
    ensures (r, calls) == LaunchStage(providerName, st, name, keyName, now, world)
  {
    var run := RunInstances(RunRequest(st.image, st.instanceType, keyName, SpawnTags(name, now, st.minutes)));
    calls := [run];
    if world.launched.Err? {
      calls := calls + [DeleteKeyPair(keyName)];
      assert calls == [run, DeleteKeyPair(keyName)];
      return Err(Wrap(LAUNCH_PREFIX, world.launched.error)), calls;
    }
    var instanceId := world.launched.value;
    calls := calls + [WaitAndDescribe(instanceId)];
    if world.details.Err? {
      var cleanup := [TerminateInstances(instanceId)];
      if world.terminated.Ok? {
        cleanup := cleanup + [DeleteKeyPair(keyName)];
      }
      assert cleanup == [TerminateInstances(instanceId)] + (if world.terminated.Ok? then [DeleteKeyPair(keyName)] else []);
      calls := calls + cleanup;
      assert calls == [run, WaitAndDescribe(instanceId)] + cleanup;
      return Err(Wrap(DETAILS_PREFIX, world.details.error)), calls;
    }
    assert calls == [run, WaitAndDescribe(instanceId)];
    var (status, ip) := world.details.value;
    r := Ok(Instance(providerName, instanceId, name, OrNoIp(ip), status, st.region, st.image,
                     now, st.minutes, None, None));
  }

  /** The calls before run_instances, once the key file is read, the network
      is set up and the key pair imported. */
  function ImportCalls(keyPath: string, keyName: string, content: string): seq<Call> {
    [ReadKeyFile(keyPath), SetupNetwork, ImportKeyPair(keyName, Strip(content))]
  }

  /** spawn_instance once the settings and the two generated names are fixed:
      the key file (None when it is missing), the network setup (its error is
      passed on as it is), the key import, then the launch stage. */
  function SpawnFrom(providerName: Option<string>, st: Settings, name: string, keyName: string,
                     key: Option<string>, now: int, world: World): (out: (Result<Instance>, seq<Call>))
    ensures |out.1| > 0 && out.1[0] == ReadKeyFile(st.keyPath)
    ensures key.None? ==> out.0 == Err(Error(FileMissing, "SSH key not found at " + st.keyPath)) && |out.1| == 1
    ensures |out.1| > 2 ==> key.Some? && world.network.Ok? && out.1[2] == ImportKeyPair(keyName, Strip(key.value))
    ensures out.0.Ok? ==>
      && key.Some? && world.network.Ok? && world.imported.Ok? && world.launched.Ok? && world.details.Ok?
      && out.0.value == Instance(providerName, world.launched.value, name, OrNoIp(world.details.value.1),
                                 world.details.value.0, st.region, st.image, now, st.minutes, None, None)
  {
    match key
    case None => (Err(Error(FileMissing, "SSH key not found at " + st.keyPath)), [ReadKeyFile(st.keyPath)])
    case Some(content) =>
      match world.network
      case Err(e) => (Err(e), [ReadKeyFile(st.keyPath), SetupNetwork])
      case Ok(_) =>
        var before := ImportCalls(st.keyPath, keyName, content);
        match world.imported
        case Err(e) => (Err(Wrap(IMPORT_PREFIX, e)), before)
        case Ok(_) =>
          var launch := LaunchStage(providerName, st, name, keyName, now, world);
          (launch.0, before + launch.1)
  }

  /** spawn_instance: a "gmab-" name of twelve drawn characters and a
      "gmab-key-" key-pair name of eight. */
  function SpawnSpec(
    cfg: Dict, providerName: Option<string>,
    image: Option<string>, region: Option<string>, sshKeyPath: Option<string>, lifetime: Option<int>,
    now: int, namePicks: seq<nat>, keyPicks: seq<nat>, keyFiles: string -> Option<string>, world: World)
    : (out: (Result<Instance>, seq<Call>))
    requires |namePicks| == 12 && |keyPicks| == 8
    ensures |out.1| > 0 && out.1[0] == ReadKeyFile(SpawnSettings(cfg, image, region, sshKeyPath, lifetime).keyPath)
    ensures |out.1| > 2 ==> out.1[2].ImportKeyPair? && HasGeneratedShape(out.1[2].keyName, KEY_PREFIX, 8)
    ensures out.0.Ok? ==>
      var r := out.0.value;
      var st := SpawnSettings(cfg, image, region, sshKeyPath, lifetime);
      && IsSpawnRecord(r)
      && r.provider == providerName
      && HasGeneratedShape(r.name, NAME_PREFIX, 12)
      && r.creationTime == now
      && r.lifetimeMinutes == (if lifetime.None? then 60 else lifetime.value)
      && r.region == st.region && r.image == st.image
  {
    var st := SpawnSettings(cfg, image, region, sshKeyPath, lifetime);
    GeneratedShape(NAME_PREFIX, namePicks);
    GeneratedShape(KEY_PREFIX, keyPicks);
    SpawnFrom(providerName, st, NAME_PREFIX + RandomString(namePicks), KEY_PREFIX + RandomString(keyPicks),
              keyFiles(st.keyPath), now, world)
  }

  /** The launch request carries the generated instance name and key pair and
      the spawn tags, and is issued only after the key import succeeded. */
  lemma SpawnLaunchRequest(providerName: Option<string>, st: Settings, name: string, keyName: string,
                           key: Option<string>, now: int, world: World)
    ensures var out := SpawnFrom(providerName, st, name, keyName, key, now, world);
      && (|out.1| > 3 ==> key.Some? && world.network.Ok? && world.imported.Ok?)
      && (key.Some? && world.network.Ok? && world.imported.Ok? ==>
            |out.1| > 3 && out.1[3] == RunInstances(RunRequest(st.image, st.instanceType, keyName, SpawnTags(name, now, st.minutes))))
  {
  }

  /** Past the key import, spawn is the launch stage after the import calls. */
  lemma SpawnReachesLaunch(providerName: Option<string>, st: Settings, name: string, keyName: string,
                           key: Option<string>, now: int, world: World)
    requires key.Some? && world.network.Ok? && world.imported.Ok?
    ensures var launch := LaunchStage(providerName, st, name, keyName, now, world);
      SpawnFrom(providerName, st, name, keyName, key, now, world)
        == (launch.0, ImportCalls(st.keyPath, keyName, key.value) + launch.1)
  {
  }

  /** A failed launch ends the spawn with the removal of the imported key pair. */
  lemma SpawnLaunchFailureCleanup(providerName: Option<string>, st: Settings, name: string, keyName: string,
                                  key: Option<string>, now: int, world: World)
    requires key.Some? && world.network.Ok? && world.imported.Ok? && world.launched.Err?
    ensures var out := SpawnFrom(providerName, st, name, keyName, key, now, world);
      && out.0.Err? && StartsWith(out.0.error.message, LAUNCH_PREFIX)
      && out.1[|out.1| - 1] == DeleteKeyPair(keyName)
  {
    SpawnReachesLaunch(providerName, st, name, keyName, key, now, world);
    var launch := LaunchStage(providerName, st, name, keyName, now, world);
    LastOfAppend(ImportCalls(st.keyPath, keyName, key.value), launch.1);
  }

  /** A failure once the instance exists terminates it; the key pair is then
      removed exactly when the terminate request succeeded. */
  lemma SpawnDetailsFailureCleanup(providerName: Option<string>, st: Settings, name: string, keyName: string,
                                   key: Option<string>, now: int, world: World)
    requires key.Some? && world.network.Ok? && world.imported.Ok? && world.launched.Ok? && world.details.Err?
    ensures var out := SpawnFrom(providerName, st, name, keyName, key, now, world);
      && out.0 == Err(Wrap(DETAILS_PREFIX, world.details.error))
      && |out.1| > 5 && out.1[5] == TerminateInstances(world.launched.value)
      && (world.terminated.Ok? <==> out.1[|out.1| - 1] == DeleteKeyPair(keyName))
  {
    SpawnReachesLaunch(providerName, st, name, keyName, key, now, world);
    var launch := LaunchStage(providerName, st, name, keyName, now, world);
    var pre := ImportCalls(st.keyPath, keyName, key.value);
    LaunchDetailsFailure(providerName, st, name, keyName, now, world);
    LastOfAppend(pre, launch.1);
    assert (pre + launch.1)[5] == launch.1[2];
  }

  /** What spawn writes, listing reads back: the instance run with the spawn
      tags lists with the spawned name, creation time and lifetime, and the
      Name-tag lookup finds it. */
  lemma SpawnedInstanceListsBack(x: AwsInstance, name: string, c: int, m: int, providerName: Option<string>, now: int)
    requires x.tags == SpawnTags(name, c, m) && x.state in LIVE_STATES
    ensures Matches(x, LIST_FILTER) && Matches(x, LabelFilter(name))
    ensures ToRecord(x, providerName, now).Ok?
    ensures ToRecord(x, providerName, now).value.name == name
    ensures ToRecord(x, providerName, now).value.creationTime == c
    ensures ToRecord(x, providerName, now).value.lifetimeMinutes == m
  {
    SpawnTagsRoundTrip(name, c, m, now);
    ToRecordFields(x, providerName, now);
  }

  /** spawn_instance: the settings and the generated names, then the steps. */
  method SpawnInstance(
    cfg: Dict, providerName: Option<string>,
    image: Option<string>, region: Option<string>, sshKeyPath: Option<string>, lifetime: Option<int>,
    now: int, namePicks: seq<nat>, keyPicks: seq<nat>, keyFiles: string -> Option<string>, world: World)
    returns (r: Result<Instance>, calls: seq<Call>)
    requires |namePicks| == 12 && |keyPicks| == 8
    ensures (r, calls) == SpawnSpec(cfg, providerName, image, region, sshKeyPath, lifetime, now, namePicks, keyPicks, keyFiles, world)
  {
    var st := SpawnSettings(cfg, image, region, sshKeyPath, lifetime);
    var instanceName := NAME_PREFIX + RandomString(namePicks);
    var keyName := KEY_PREFIX + RandomString(keyPicks);
    r, calls := SpawnSteps(providerName, st, instanceName, keyName, keyFiles(st.keyPath), now, world);
  }

  /** The steps of spawn_instance once its settings and names are fixed. */
  method SpawnSteps(providerName: Option<string>, st: Settings, instanceName: string, keyName: string,
                    content: Option<string>, now: int, world: World)
    returns (r: Result<Instance>, calls: seq<Call>)
    ensures (r, calls) == SpawnFrom(providerName, st, instanceName, keyName, content, now, world)
  {
    calls := [ReadKeyFile(st.keyPath)];
    if content.None? {
      return Err(Error(FileMissing, "SSH key not found at " + st.keyPath)), calls;
    }
    calls := calls + [SetupNetwork];
    assert calls == [ReadKeyFile(st.keyPath), SetupNetwork];
    if world.network.Err? {
      return Err(world.network.error), calls;
    }
    calls := calls + [ImportKeyPair(keyName, Strip(content.value))];
    assert calls == ImportCalls(st.keyPath, keyName, content.value);
    if world.imported.Err? {
      return Err(Wrap(IMPORT_PREFIX, world.imported.error)), calls;
    }
    SpawnReachesLaunch(providerName, st, instanceName, keyName, content, now, world);
    var launched, more := LaunchInstance(providerName, st, instanceName, keyName, now, world);
    r := launched;
    calls := calls + more;
  }
}
