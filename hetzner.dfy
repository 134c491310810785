// The Hetzner Cloud adapter: lifetime bookkeeping in key/value labels, the
// listing through the "gmab" label selector and its record mapping, label
// lookup, terminate dispatch, SSH-key reuse and spawn. Every HTTP exchange is
// a reply value in `World`; operations that issue several requests also
// return them, in order.

module Hetzner {
  import opened Common
  import opened Base

  /** `public_net.ipv4` of a server: missing (read as `{}`), JSON null, or an
      object whose "ip" key may be missing. */
  datatype Ipv4Field = Absent | Null | Present(ip: Option<string>)

  /** A server object as the Hetzner API lists it. A missing "labels" key is
      the empty list; `image` is None when the API reports a null image. */
  datatype Server = Server(
    id: int,
    name: string,
    status: string,
    labels: seq<(string, string)>,
    ipv4: Ipv4Field,
    location: string,              // datacenter.location.name
    image: Option<string>)         // image.name

  datatype SshKey = SshKey(id: int, publicKey: string)

  /** The "server" object of a successful create reply. */
  datatype Created = Created(id: int, status: string, ipv4: Ipv4Field)

  datatype CreateRequest = CreateRequest(
    name: string,
    serverType: string,
    image: string,
    location: string,
    sshKeys: seq<int>,
    labels: seq<(string, string)>)

  /** The requests an operation issues (the key-file read included). */
  datatype Call =
    | ReadKeyFile(path: string)
    | ListServers                    // GET servers with label_selector "gmab"
    | ListSshKeys
    | CreateSshKey(name: string, publicKey: string)
    | CreateServer(request: CreateRequest)
    | DeleteServer(id: string)

  /** The replies the Hetzner API gives during one command. `servers` is the
      project's whole server list; the label selector is applied to it. */
  datatype World = World(
    servers: Reply<seq<Server>>,
    sshKeys: Reply<seq<SshKey>>,
    keyCreated: Reply<int>,
    created: Reply<Created>,
    deleted: Reply<()>)

  const OWNER_KEY: string := "gmab"
  const NAME_PREFIX: string := "gmab-"
  const KEY_PREFIX: string := "gmab-key-"

  // ---------------------------------------------------------------------
  // __init__

  const NO_API_KEY: Error := Error(ValueErr, "Hetzner requires an API key to be configured")

  /** Construction succeeds exactly when the configured api_key is truthy. */
  function CheckConfig(cfg: Dict): (r: Result<()>)
    ensures r.Ok? <==> Get(cfg, "api_key").Some? && Truthy(Get(cfg, "api_key").value)
    ensures r.Err? ==> r.error.kind == ValueErr && r.error == NO_API_KEY
  {
    if TruthyAt(cfg, "api_key") then Ok(()) else Err(NO_API_KEY)
  }

  // ---------------------------------------------------------------------
  // Labels

  /** The labels spawn_instance writes. */
  function SpawnLabels(creationTime: int, lifetimeMinutes: int): seq<(string, string)> {
    [(OWNER_KEY, "true"), (CREATION_KEY, IntToString(creationTime)), (LIFETIME_KEY, IntToString(lifetimeMinutes))]
  }

  /** The spawn labels carry the selector key and parse back to the values
      written, for every integer. */
  lemma SpawnLabelsRoundTrip(c: int, m: int, now: int)
    ensures LastValue(SpawnLabels(c, m), OWNER_KEY) == Some("true")
    ensures ExpiryFromPairs(SpawnLabels(c, m), now) == Ok(MakeExpiry(c, m, now))
  {
    var t := SpawnLabels(c, m);
    var t2 := t[..2];
    var t1 := t2[..1];
    assert t2 == [(OWNER_KEY, "true"), (CREATION_KEY, IntToString(c))];
    assert t1 == [(OWNER_KEY, "true")];
    assert CREATION_KEY != LIFETIME_KEY by { assert CREATION_KEY[5] != LIFETIME_KEY[5]; }
    assert LastValue(t, LIFETIME_KEY) == Some(IntToString(m));
    assert LastValue(t, CREATION_KEY) == LastValue(t2, CREATION_KEY) == Some(IntToString(c));
    assert LastValue(t, OWNER_KEY) == LastValue(t2, OWNER_KEY) == LastValue(t1, OWNER_KEY);
    ParseIntOfIntToString(c);
    ParseIntOfIntToString(m);
  }

  // ---------------------------------------------------------------------
  // list_instances

  const LIST_PREFIX: string := "Failed to list Hetzner instances: "
  const LIST_STATUS_PREFIX: string := "Failed to list servers: "
  const LIST_NETWORK_PREFIX: string := "Network error when listing servers: "

  /** `.get("ip", ...)` on a null ipv4 object. */
  const NULL_ATTRIBUTE: Error := Error(Failure, "'NoneType' object has no attribute 'get'")
  /** `["name"]` on a null image object. */
  const NULL_SUBSCRIPT: Error := Error(Failure, "'NoneType' object is not subscriptable")

  /** The "gmab" label selector matches servers that carry the key. */
  predicate Selected(s: Server) {
    LastValue(s.labels, OWNER_KEY).Some?
  }

  function SelectOwned(ss: seq<Server>): (t: seq<Server>)
    ensures forall s :: s in t <==> s in ss && Selected(s)
  {
    if ss == [] then []
    else SelectOwned(ss[..|ss| - 1]) + (if Selected(ss[|ss| - 1]) then [ss[|ss| - 1]] else [])
  }

  /** `server.get("public_net", {}).get("ipv4", {}).get("ip", NO_IP)`. */
  function IpOf(f: Ipv4Field): Result<string> {
    match f
    case Absent => Ok(NO_IP)
    case Null => Err(NULL_ATTRIBUTE)
    case Present(ip) => Ok(if ip.Some? then ip.value else NO_IP)
  }

  /** The record listed for one selected server. The labels are read first,
      then the address, then the image. */
  function ToRecord(s: Server, providerName: Option<string>, now: int): (r: Result<Instance>)
    ensures r.Ok? <==> ExpiryFromPairs(s.labels, now).Ok? && s.ipv4 != Null && s.image.Some?
  {
    match ExpiryFromPairs(s.labels, now)
    case Err(e) => Err(e)
    case Ok(x) =>
      match IpOf(s.ipv4)
      case Err(e) => Err(e)
      case Ok(ip) =>
        match s.image
        case None => Err(NULL_SUBSCRIPT)
        case Some(image) =>
          Ok(Instance(providerName, IntToString(s.id), s.name, ip, MarkStatus(s.status, x.expired),
                      s.location, image, x.creationTime, x.lifetimeMinutes, Some(x.expired), None))
  }

  /** The fields of a listed record: the id as text, the name, the expiry from
      the labels, the suffix exactly when expired, and the sentinel address
      when the API gives none. */
  lemma ToRecordFields(s: Server, providerName: Option<string>, now: int)
    requires ToRecord(s, providerName, now).Ok?
    ensures var r := ToRecord(s, providerName, now).value;
      var x := ExpiryFromPairs(s.labels, now).value;
      && IsListRecord(r, now)
      && r.provider == providerName
      && r.instanceId == IntToString(s.id)
      && r.name == s.name
      && r.creationTime == x.creationTime && r.lifetimeMinutes == x.lifetimeMinutes
      && (r.isExpired == Some(true) ==> r.status == s.status + EXPIRED_SUFFIX)
      && (r.isExpired == Some(false) ==> r.status == s.status)
      && r.ip == (if s.ipv4.Present? && s.ipv4.ip.Some? then s.ipv4.ip.value else NO_IP)
      && r.region == s.location && r.image == s.image.value
  {
  }

  /** The record of each selected server. */
  function Recorder(providerName: Option<string>, now: int): Server -> Result<Instance> {
    s => ToRecord(s, providerName, now)
  }

  /** The loop body applied to the selected servers in API order. */
  function RecordsOf(ss: seq<Server>, providerName: Option<string>, now: int): Result<seq<Instance>> {
    MapRecords(ss, Recorder(providerName, now))
  }

  /** The listing succeeds exactly when every server maps, and then it is the
      servers mapped one by one, in order. */
  lemma RecordsOfEach(ss: seq<Server>, providerName: Option<string>, now: int)
    ensures RecordsOf(ss, providerName, now).Ok? <==> forall i :: 0 <= i < |ss| ==> ToRecord(ss[i], providerName, now).Ok?
    ensures RecordsOf(ss, providerName, now).Ok? ==>
      var rs := RecordsOf(ss, providerName, now).value;
      |rs| == |ss| && forall i :: 0 <= i < |ss| ==> ToRecord(ss[i], providerName, now) == Ok(rs[i])
  {
    MapRecordsEach(ss, Recorder(providerName, now));
  }

  function ListSpec(providerName: Option<string>, world: World, now: int): (r: Result<seq<Instance>>)
    ensures world.servers.NetworkError? ==> r == Err(Error(Failure, LIST_NETWORK_PREFIX + world.servers.message))
    ensures world.servers.BadStatus? ==> r == Err(Error(Failure, LIST_PREFIX + LIST_STATUS_PREFIX + world.servers.text))
  {
    match world.servers
    case NetworkError(m) => Err(Error(Failure, LIST_NETWORK_PREFIX + m))
    case BadStatus(t) => Err(Error(Failure, LIST_PREFIX + LIST_STATUS_PREFIX + t))
    case Got(all) =>
      match RecordsOf(SelectOwned(all), providerName, now)
      case Err(e) => Err(Wrap(LIST_PREFIX, e))
      case Ok(rs) => Ok(rs)
  }

  /** Every listed record comes from a server carrying the "gmab" label, and
      is that server's mapping. */
  lemma ListedAreSelected(providerName: Option<string>, world: World, now: int)
    requires ListSpec(providerName, world, now).Ok?
    ensures world.servers.Got?
    ensures var rs := ListSpec(providerName, world, now).value;
      var sel := SelectOwned(world.servers.body);
      |rs| == |sel| && forall i :: 0 <= i < |rs| ==>
        sel[i] in world.servers.body && Selected(sel[i]) && ToRecord(sel[i], providerName, now) == Ok(rs[i])
  {
    var sel := SelectOwned(world.servers.body);
    RecordsOfEach(sel, providerName, now);
    assert forall i :: 0 <= i < |sel| ==> sel[i] in sel;
  }

  method ListInstances(providerName: Option<string>, world: World, now: int) returns (r: Result<seq<Instance>>)
    ensures r == ListSpec(providerName, world, now)
  {
    match world.servers {
      case NetworkError(m) =>
        return Err(Error(Failure, LIST_NETWORK_PREFIX + m));
      case BadStatus(t) =>
        return Err(Error(Failure, LIST_PREFIX + LIST_STATUS_PREFIX + t));
      case Got(all) =>
        var records := MapEach(SelectOwned(all), Recorder(providerName, now));
        if records.Err? {
          return Err(Wrap(LIST_PREFIX, records.error));
        }
        r := records;
    }
  }

  /** list_expired_instances: the listing filtered by is_expired. */
  method ListExpiredInstances(providerName: Option<string>, world: World, now: int) returns (r: Result<seq<Instance>>)
    ensures ListSpec(providerName, world, now).Err? ==> r == ListSpec(providerName, world, now)
    ensures ListSpec(providerName, world, now).Ok? ==> r == Ok(ExpiredOnly(ListSpec(providerName, world, now).value))
  {
    var listed := ListInstances(providerName, world, now);
    if listed.Err? {
      return listed;
    }
    r := Ok(ExpiredOnly(listed.value));
  }

  /** A server created by spawn lists back with the creation time and
      lifetime that were written, whenever its address and image can be read. */
  lemma SpawnedServerListsBack(s: Server, providerName: Option<string>, c: int, m: int, now: int)
    requires s.labels == SpawnLabels(c, m) && s.ipv4 != Null && s.image.Some?
    ensures Selected(s)
    ensures ToRecord(s, providerName, now).Ok?
    ensures ToRecord(s, providerName, now).value.creationTime == c
    ensures ToRecord(s, providerName, now).value.lifetimeMinutes == m
    ensures ToRecord(s, providerName, now).value.isExpired == Some(now - c > m * 60)
  {
    SpawnLabelsRoundTrip(c, m, now);
  }

  // ---------------------------------------------------------------------
  // get_instance_id_by_label and terminate_instance

  /** Any failure of the listing makes the lookup answer None. */
  method GetInstanceIdByLabel(providerName: Option<string>, world: World, now: int, wanted: string)
    returns (r: Option<string>)
    ensures ListSpec(providerName, world, now).Err? ==> r.None?
    ensures ListSpec(providerName, world, now).Ok? ==> r == FirstIdWithLabel(ListSpec(providerName, world, now).value, wanted)
  {
    var listed := ListInstances(providerName, world, now);
    if listed.Err? {
      return None;
    }
    var instances := listed.value;
    var i := 0;
    while i < |instances|
      invariant 0 <= i <= |instances|
      invariant FirstIdWithLabel(instances, wanted) == FirstIdWithLabel(instances[i..], wanted)
    {
      assert instances[i..][1..] == instances[i + 1..];
      if instances[i].name == wanted {
        return Some(instances[i].instanceId);
      }
      i := i + 1;
    }
    r := None;
  }

  /** get_instance_id_by_label as a value: None on any listing failure. */
  function LookupSpec(providerName: Option<string>, world: World, now: int, wanted: string): Option<string> {
    match ListSpec(providerName, world, now)
    case Err(_) => None
    case Ok(rs) => FirstIdWithLabel(rs, wanted)
  }

  const TERMINATE_PREFIX: string := "Failed to terminate Hetzner instance: "
  const DELETE_STATUS_PREFIX: string := "Failed to delete server: "
  const TERMINATE_NETWORK_PREFIX: string := "Network error when terminating server: "

  function NoLabelMatch(wanted: string): Error {
    Error(Failure, TERMINATE_PREFIX + "No instance found with label '" + wanted + "'")
  }

  /** terminate_instance: an all-digit identifier is deleted directly; any
      other identifier is resolved through the lookup, and a miss (a listing
      failure included) raises before any delete request. A 200 or 204 reply
      is success. */
  function TerminateSpec(providerName: Option<string>, world: World, now: int, identifier: string)
    : (out: (Result<()>, seq<Call>))
    ensures IsDigits(identifier) ==> out.1 == [DeleteServer(identifier)]
    ensures !IsDigits(identifier) && LookupSpec(providerName, world, now, identifier).None? ==>
      out == (Err(NoLabelMatch(identifier)), [ListServers])
    ensures !IsDigits(identifier) && LookupSpec(providerName, world, now, identifier).Some? ==>
      out.1 == [ListServers, DeleteServer(LookupSpec(providerName, world, now, identifier).value)]
    ensures out.0.Ok? <==> world.deleted.Got? && (IsDigits(identifier) || LookupSpec(providerName, world, now, identifier).Some?)
  {
    var target: Option<(string, seq<Call>)> :=
      if IsDigits(identifier) then Some((identifier, []))
      else
        match LookupSpec(providerName, world, now, identifier)
        case None => None
        case Some(id) => Some((id, [ListServers]));
    match target
    case None => (Err(NoLabelMatch(identifier)), [ListServers])
    case Some((id, before)) =>
      var calls := before + [DeleteServer(id)];
      match world.deleted
      case NetworkError(m) => (Err(Error(Failure, TERMINATE_NETWORK_PREFIX + m)), calls)
      case BadStatus(t) => (Err(Error(Failure, TERMINATE_PREFIX + DELETE_STATUS_PREFIX + t)), calls)
      case Got(_) => (Ok(()), calls)
  }

  /** A listing failure during the lookup surfaces as the not-found error, not
      as the listing's own error. */
  lemma ListFailureReadsAsNotFound(providerName: Option<string>, world: World, now: int, identifier: string)
    requires !IsDigits(identifier) && ListSpec(providerName, world, now).Err?
    ensures TerminateSpec(providerName, world, now, identifier) == (Err(NoLabelMatch(identifier)), [ListServers])
  {
  }

  method TerminateInstance(providerName: Option<string>, world: World, now: int, identifier: string)
    returns (r: Result<()>, calls: seq<Call>)
    ensures (r, calls) == TerminateSpec(providerName, world, now, identifier)
  {
    var instanceId: string;
    calls := [];
    if !IsDigits(identifier) {
      var found := GetInstanceIdByLabel(providerName, world, now, identifier);
      calls := [ListServers];
      if found.None? {
        return Err(NoLabelMatch(identifier)), calls;
      }
      instanceId := found.value;
    } else {
      instanceId := identifier;
    }
    calls := calls + [DeleteServer(instanceId)];
    match world.deleted {
      case NetworkError(m) =>
        r := Err(Error(Failure, TERMINATE_NETWORK_PREFIX + m));
      case BadStatus(t) =>
        r := Err(Error(Failure, TERMINATE_PREFIX + DELETE_STATUS_PREFIX + t));
      case Got(_) =>
        r := Ok(());
    }
  }

  // ---------------------------------------------------------------------
  // _get_or_create_ssh_key

  const KEY_PREFIX_ERROR: string := "Failed to get or create SSH key: "
  const KEY_NETWORK_PREFIX: string := "Network error when managing SSH keys: "
  const KEY_LIST_STATUS_PREFIX: string := "Failed to list SSH keys: "
  const KEY_CREATE_STATUS_PREFIX: string := "Failed to create SSH key: "

  /** The id of the first key whose stripped public key equals `wanted`. */
  function FirstMatchingKey(keys: seq<SshKey>, wanted: string): Option<int> {
    if keys == [] then None
    else if Strip(keys[0].publicKey) == wanted then Some(keys[0].id)
    else FirstMatchingKey(keys[1..], wanted)
  }

  lemma {:induction false} FirstMatchingKeySpec(keys: seq<SshKey>, wanted: string)
    ensures FirstMatchingKey(keys, wanted).None? <==> forall i :: 0 <= i < |keys| ==> Strip(keys[i].publicKey) != wanted
    ensures FirstMatchingKey(keys, wanted).Some? ==>
      exists i :: 0 <= i < |keys| && Strip(keys[i].publicKey) == wanted && keys[i].id == FirstMatchingKey(keys, wanted).value
        && forall j :: 0 <= j < i ==> Strip(keys[j].publicKey) != wanted
    decreases |keys|
  {
    if keys != [] && Strip(keys[0].publicKey) != wanted {
      var tail := keys[1..];
      FirstMatchingKeySpec(tail, wanted);
      assert forall i :: 0 <= i < |tail| ==> tail[i] == keys[i + 1];
      if FirstMatchingKey(tail, wanted).Some? {
        var i :| 0 <= i < |tail| && Strip(tail[i].publicKey) == wanted && tail[i].id == FirstMatchingKey(tail, wanted).value
          && forall j :: 0 <= j < i ==> Strip(tail[j].publicKey) != wanted;
        assert forall j :: 0 <= j < i + 1 ==> Strip(keys[j].publicKey) != wanted by {
          forall j | 0 <= j < i + 1 ensures Strip(keys[j].publicKey) != wanted {
            if j > 0 { assert keys[j] == tail[j - 1]; }
          }
        }
        assert Strip(keys[i + 1].publicKey) == wanted;
      } else {
        forall i | 0 <= i < |keys| ensures Strip(keys[i].publicKey) != wanted {
          if i > 0 { assert keys[i] == tail[i - 1]; }
        }
      }
    }
  }

  /** _get_or_create_ssh_key: list the keys, reuse the first whose stripped
      public key equals the stripped content, else upload the content under a
      "gmab-key-" name of eight drawn characters. Every failure is wrapped;
      a request exception is wrapped as a network error. */
  function KeySpec(content: string, keyPicks: seq<nat>, world: World): (out: (Result<int>, seq<Call>))
    ensures |out.1| > 0 && out.1[0] == ListSshKeys
  {
    match world.sshKeys
    case NetworkError(m) => (Err(Error(Failure, KEY_NETWORK_PREFIX + m)), [ListSshKeys])
    case BadStatus(t) => (Err(Error(Failure, KEY_PREFIX_ERROR + KEY_LIST_STATUS_PREFIX + t)), [ListSshKeys])
    case Got(keys) =>
      match FirstMatchingKey(keys, Strip(content))
      case Some(id) => (Ok(id), [ListSshKeys])
      case None =>
        var calls := [ListSshKeys, CreateSshKey(KEY_PREFIX + RandomString(keyPicks), content)];
        match world.keyCreated
        case NetworkError(m) => (Err(Error(Failure, KEY_NETWORK_PREFIX + m)), calls)
        case BadStatus(t) => (Err(Error(Failure, KEY_PREFIX_ERROR + KEY_CREATE_STATUS_PREFIX + t)), calls)
        case Got(id) => (Ok(id), calls)
  }

  /** A matching key is reused, the first one in the listed order, and no
      key is uploaded. */
  lemma MatchingKeyReused(content: string, keyPicks: seq<nat>, world: World, k: nat)
    requires world.sshKeys.Got? && k < |world.sshKeys.body|
    requires Strip(world.sshKeys.body[k].publicKey) == Strip(content)
    requires forall j :: 0 <= j < k ==> Strip(world.sshKeys.body[j].publicKey) != Strip(content)
    ensures KeySpec(content, keyPicks, world) == (Ok(world.sshKeys.body[k].id), [ListSshKeys])
  {
    var keys := world.sshKeys.body;
    FirstMatchingKeySpec(keys, Strip(content));
    var i :| 0 <= i < |keys| && Strip(keys[i].publicKey) == Strip(content)
      && keys[i].id == FirstMatchingKey(keys, Strip(content)).value
      && forall j :: 0 <= j < i ==> Strip(keys[j].publicKey) != Strip(content);
    assert i == k;
  }

  /** Without a matching key, exactly one upload follows the listing, of the
      content itself under a generated "gmab-key-" name. */
  lemma NoMatchUploads(content: string, keyPicks: seq<nat>, world: World)
    requires world.sshKeys.Got?
    requires forall j :: 0 <= j < |world.sshKeys.body| ==> Strip(world.sshKeys.body[j].publicKey) != Strip(content)
    ensures var out := KeySpec(content, keyPicks, world);
      && |out.1| == 2 && out.1[1].CreateSshKey? && out.1[1].publicKey == content
      && HasGeneratedShape(out.1[1].name, KEY_PREFIX, |keyPicks|)
      && (out.0.Ok? <==> world.keyCreated.Got?)
      && (out.0.Ok? ==> out.0.value == world.keyCreated.body)
  {
    FirstMatchingKeySpec(world.sshKeys.body, Strip(content));
    GeneratedShape(KEY_PREFIX, keyPicks);
  }

  method GetOrCreateSshKey(content: string, keyPicks: seq<nat>, world: World) returns (r: Result<int>, calls: seq<Call>)
    ensures (r, calls) == KeySpec(content, keyPicks, world)
  {
    calls := [ListSshKeys];
    match world.sshKeys {
      case NetworkError(m) =>
        return Err(Error(Failure, KEY_NETWORK_PREFIX + m)), calls;
      case BadStatus(t) =>
        return Err(Error(Failure, KEY_PREFIX_ERROR + KEY_LIST_STATUS_PREFIX + t)), calls;
      case Got(keys) =>
        var wanted := Strip(content);
        var i := 0;
        while i < |keys|
          invariant 0 <= i <= |keys|
          invariant FirstMatchingKey(keys, wanted) == FirstMatchingKey(keys[i..], wanted)
        {
          assert keys[i..][0] == keys[i] && keys[i..][1..] == keys[i + 1..];
          if Strip(keys[i].publicKey) == wanted {
            assert FirstMatchingKey(keys, wanted) == Some(keys[i].id);
            return Ok(keys[i].id), calls;
          }
          i := i + 1;
        }
        assert keys[i..] == [];
        assert FirstMatchingKey(keys, wanted) == None;
        calls := calls + [CreateSshKey(KEY_PREFIX + RandomString(keyPicks), content)];
        assert calls == [ListSshKeys, CreateSshKey(KEY_PREFIX + RandomString(keyPicks), content)];
        match world.keyCreated {
          case NetworkError(m) =>
            r := Err(Error(Failure, KEY_NETWORK_PREFIX + m));
          case BadStatus(t) =>
            r := Err(Error(Failure, KEY_PREFIX_ERROR + KEY_CREATE_STATUS_PREFIX + t));
          case Got(id) =>
            r := Ok(id);
        }
    }
  }

  // ---------------------------------------------------------------------
  // spawn_instance

  const CREATE_PREFIX: string := "Failed to create Hetzner instance: "
  const CREATE_STATUS_PREFIX: string := "Failed to create server: "
  const CREATE_NETWORK_PREFIX: string := "Network error when creating server: "

  function KeyNotFound(path: string): Error {
    Error(FileMissing, "SSH key not found at " + path)
  }

  /** The values spawn_instance settles on before any request. */
  datatype Settings = Settings(serverType: string, image: string, region: string, minutes: int, keyPath: string)

  /** The fallbacks: the server type is always the configured one; image,
      region and key path fall back when empty or None; a None lifetime (but
      not 0) becomes 60. */
  function SpawnSettings(cfg: Dict, image: Option<string>, region: Option<string>,
                         sshKeyPath: Option<string>, lifetime: Option<int>): (st: Settings)
    ensures image.Some? && image.value != "" ==> st.image == image.value
    ensures region.Some? && region.value != "" ==> st.region == region.value
    ensures (image.None? || image.value == "") && Get(cfg, "default_image").None? ==> st.image == "ubuntu-22.04"
    ensures (region.None? || region.value == "") && Get(cfg, "default_region").None? ==> st.region == "nbg1"
    ensures Get(cfg, "default_type").None? ==> st.serverType == "cpx11"
    ensures (region.None? || region.value == "") && Get(cfg, "default_region").Some? ==>
      st.region == AsText(Get(cfg, "default_region").value)
    ensures (image.None? || image.value == "") && Get(cfg, "default_image").Some? ==>
      st.image == AsText(Get(cfg, "default_image").value)
    ensures Get(cfg, "default_type").Some? ==> st.serverType == AsText(Get(cfg, "default_type").value)
    ensures st.minutes == (if lifetime.None? then DEFAULT_LIFETIME else lifetime.value)
    ensures st.keyPath == KeyPath(cfg, sshKeyPath)
  {
    Settings(
      AsText(GetOr(cfg, "default_type", JStr("cpx11"))),
      OrText(image, AsText(GetOr(cfg, "default_image", JStr("ubuntu-22.04")))),
      OrText(region, AsText(GetOr(cfg, "default_region", JStr("nbg1")))),
      if lifetime.Some? then lifetime.value else DEFAULT_LIFETIME,
      KeyPath(cfg, sshKeyPath))
  }

  function ServerRequest(st: Settings, name: string, keyId: int, now: int): CreateRequest {
    CreateRequest(name, st.serverType, st.image, st.region, [keyId], SpawnLabels(now, st.minutes))
  }

  /** The record spawn_instance returns for a created server: the id as
      text, the address from public_net.ipv4 (the sentinel when there is
      none), the reported status, and the name and settings it asked for. */
  predicate CreatedRecord(r: Instance, providerName: Option<string>, st: Settings, name: string, now: int, c: Created) {
    && r.provider == providerName
    && r.instanceId == IntToString(c.id)
    && r.name == name
    && r.ip == (if c.ipv4.Present? && c.ipv4.ip.Some? then c.ipv4.ip.value else NO_IP)
    && r.status == c.status
    && r.region == st.region && r.image == st.image
    && r.creationTime == now && r.lifetimeMinutes == st.minutes
    && IsSpawnRecord(r)
  }

  /** The create-server request and the record built from its reply. */
  function CreateStage(providerName: Option<string>, st: Settings, name: string, keyId: int, now: int, world: World)
    : (out: (Result<Instance>, seq<Call>))
    ensures out.1 == [CreateServer(ServerRequest(st, name, keyId, now))]
    ensures out.0.Ok? <==> world.created.Got? && world.created.body.ipv4 != Null
    ensures out.0.Ok? ==> CreatedRecord(out.0.value, providerName, st, name, now, world.created.body)
  {
    var calls := [CreateServer(ServerRequest(st, name, keyId, now))];
    match world.created
    case NetworkError(m) => (Err(Error(Failure, CREATE_NETWORK_PREFIX + m)), calls)
    case BadStatus(t) => (Err(Error(Failure, CREATE_PREFIX + CREATE_STATUS_PREFIX + t)), calls)
    case Got(c) =>
      match IpOf(c.ipv4)
      case Err(e) => (Err(Wrap(CREATE_PREFIX, e)), calls)
      case Ok(ip) =>
        (Ok(Instance(providerName, IntToString(c.id), name, ip, c.status, st.region, st.image, now, st.minutes, None, None)),
         calls)
  }

  /** spawn_instance once the settings and the name are fixed: a missing key
      file fails unwrapped before any request; the stripped content is the key
      to reuse or upload; a key failure is wrapped and stops before the
      create request. */
  function SpawnFrom(providerName: Option<string>, st: Settings, name: string, key: Option<string>,
                     keyPicks: seq<nat>, now: int, world: World): (out: (Result<Instance>, seq<Call>))
    ensures |out.1| > 0 && out.1[0] == ReadKeyFile(st.keyPath)
    ensures key.None? ==> out == (Err(KeyNotFound(st.keyPath)), [ReadKeyFile(st.keyPath)])
  {
    match key
    case None => (Err(KeyNotFound(st.keyPath)), [ReadKeyFile(st.keyPath)])
    case Some(raw) =>
      var k := KeySpec(Strip(raw), keyPicks, world);
      match k.0
      case Err(e) => (Err(Wrap(CREATE_PREFIX, e)), [ReadKeyFile(st.keyPath)] + k.1)
      case Ok(id) =>
        var c := CreateStage(providerName, st, name, id, now, world);
        (c.0, [ReadKeyFile(st.keyPath)] + k.1 + c.1)
  }

  /** A successful spawn used the key the key stage chose, and its create
      request carries that key, the generated name, the chosen settings and
      the spawn labels. */
  lemma SpawnUsesChosenKey(providerName: Option<string>, st: Settings, name: string, key: Option<string>,
                           keyPicks: seq<nat>, now: int, world: World)
    requires SpawnFrom(providerName, st, name, key, keyPicks, now, world).0.Ok?
    ensures key.Some?
    ensures var k := KeySpec(Strip(key.value), keyPicks, world);
      var out := SpawnFrom(providerName, st, name, key, keyPicks, now, world);
      && k.0.Ok?
      && out.1 == [ReadKeyFile(st.keyPath)] + k.1 + [CreateServer(ServerRequest(st, name, k.0.value, now))]
      && out.0.value.name == name && out.0.value.creationTime == now && out.0.value.lifetimeMinutes == st.minutes
      && out.0.value.region == st.region && out.0.value.image == st.image
      && IsSpawnRecord(out.0.value) && out.0.value.provider == providerName
      && world.created.Got?
      && CreatedRecord(out.0.value, providerName, st, name, now, world.created.body)
  {
  }

  /** A key-stage failure ends the spawn before any create request. */
  lemma KeyFailureStopsSpawn(providerName: Option<string>, st: Settings, name: string, key: Option<string>,
                             keyPicks: seq<nat>, now: int, world: World)
    requires key.Some? && KeySpec(Strip(key.value), keyPicks, world).0.Err?
    ensures var out := SpawnFrom(providerName, st, name, key, keyPicks, now, world);
      && out.0 == Err(Wrap(CREATE_PREFIX, KeySpec(Strip(key.value), keyPicks, world).0.error))
      && forall i :: 0 <= i < |out.1| ==> !out.1[i].CreateServer?
  {
    var k := KeySpec(Strip(key.value), keyPicks, world);
    assert |k.1| <= 2;
  }

  /** spawn_instance: a "gmab-" name of twelve drawn characters; `keyFiles`
      gives the content of each readable key file. */
  function SpawnSpec(
    cfg: Dict, providerName: Option<string>,
    image: Option<string>, region: Option<string>, sshKeyPath: Option<string>, lifetime: Option<int>,
    now: int, namePicks: seq<nat>, keyPicks: seq<nat>, keyFiles: string -> Option<string>, world: World)
    : (out: (Result<Instance>, seq<Call>))
    requires |namePicks| == 12 && |keyPicks| == 8
    ensures |out.1| > 0 && out.1[0] == ReadKeyFile(SpawnSettings(cfg, image, region, sshKeyPath, lifetime).keyPath)
  {
    var st := SpawnSettings(cfg, image, region, sshKeyPath, lifetime);
    SpawnFrom(providerName, st, NAME_PREFIX + RandomString(namePicks), keyFiles(st.keyPath), keyPicks, now, world)
  }

  /** The record of a successful spawn: the generated name, the chosen
      settings, the creation time and lifetime written; and the labels sent
      parse back to those two values. */
  lemma SpawnRecordShape(
    cfg: Dict, providerName: Option<string>,
    image: Option<string>, region: Option<string>, sshKeyPath: Option<string>, lifetime: Option<int>,
    now: int, namePicks: seq<nat>, keyPicks: seq<nat>, keyFiles: string -> Option<string>, world: World, later: int)
    requires |namePicks| == 12 && |keyPicks| == 8
    requires SpawnSpec(cfg, providerName, image, region, sshKeyPath, lifetime, now, namePicks, keyPicks, keyFiles, world).0.Ok?
    ensures var out := SpawnSpec(cfg, providerName, image, region, sshKeyPath, lifetime, now, namePicks, keyPicks, keyFiles, world);
      var r := out.0.value;
      var st := SpawnSettings(cfg, image, region, sshKeyPath, lifetime);
      && IsSpawnRecord(r) && r.provider == providerName
      && HasGeneratedShape(r.name, NAME_PREFIX, 12)
      && r.creationTime == now
      && r.lifetimeMinutes == (if lifetime.None? then 60 else lifetime.value)
      && r.region == st.region && r.image == st.image
      && world.created.Got?
      && r.instanceId == IntToString(world.created.body.id)
      && r.ip == (if world.created.body.ipv4.Present? && world.created.body.ipv4.ip.Some? then world.created.body.ipv4.ip.value else NO_IP)
      && r.status == world.created.body.status
      && out.1[|out.1| - 1].CreateServer?
      && out.1[|out.1| - 1].request.name == r.name
      && ExpiryFromPairs(out.1[|out.1| - 1].request.labels, later) == Ok(MakeExpiry(r.creationTime, r.lifetimeMinutes, later))
  {
    var st := SpawnSettings(cfg, image, region, sshKeyPath, lifetime);
    var name := NAME_PREFIX + RandomString(namePicks);
    GeneratedShape(NAME_PREFIX, namePicks);
    SpawnUsesChosenKey(providerName, st, name, keyFiles(st.keyPath), keyPicks, now, world);
    SpawnLabelsRoundTrip(now, st.minutes, later);
  }

  method SpawnInstance(
    cfg: Dict, providerName: Option<string>,
    image: Option<string>, region: Option<string>, sshKeyPath: Option<string>, lifetime: Option<int>,
    now: int, namePicks: seq<nat>, keyPicks: seq<nat>, keyFiles: string -> Option<string>, world: World)
    returns (r: Result<Instance>, calls: seq<Call>)
    requires |namePicks| == 12 && |keyPicks| == 8
    ensures (r, calls) == SpawnSpec(cfg, providerName, image, region, sshKeyPath, lifetime, now, namePicks, keyPicks, keyFiles, world)
  {
    var st := SpawnSettings(cfg, image, region, sshKeyPath, lifetime);
    var file := keyFiles(st.keyPath);
    calls := [ReadKeyFile(st.keyPath)];
    if file.None? {
      return Err(KeyNotFound(st.keyPath)), calls;
    }
    var content := Strip(file.value);
    var instanceName := NAME_PREFIX + RandomString(namePicks);
    var keyId, keyCalls := GetOrCreateSshKey(content, keyPicks, world);
    calls := calls + keyCalls;
    if keyId.Err? {
      return Err(Wrap(CREATE_PREFIX, keyId.error)), calls;
    }
    var created := CreateStage(providerName, st, instanceName, keyId.value, now, world);
    r := created.0;
    calls := calls + created.1;
  }

  // ---------------------------------------------------------------------
  // get_default_config and get_config_prompts

  function DefaultConfig(): Dict {
    [("api_key", JStr("")),
     ("default_region", JStr("nbg1")),
     ("default_image", JStr("ubuntu-22.04")),
     ("default_type", JStr("cpx11"))]
  }

  /** The defaults the configuration prompts offer: the current value of each
      key, else the default configuration's value for it. */
  function PromptDefaults(current: Dict): (p: Dict)
    ensures Keys(p) == ["api_key", "default_region", "default_image", "default_type"]
    ensures forall i :: 0 <= i < |p| ==> p[i].1 == GetOr(current, p[i].0, DefaultConfig()[i].1)
  {
    PromptDefaultsFrom(current, DefaultConfig())
  }
}
