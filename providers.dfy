// The adapter contract and the provider factory. The three adapters form a
// closed set of kinds; an adapter object holds its kind, the configuration it
// was built with and the provider name the factory assigns. Its operations
// dispatch to the vendor models, against the vendor replies in a `Cloud`.

module Providers {
  import opened Common
  import opened Base
  import Linode
  import Aws
  import Hetzner

  datatype Kind = LinodeKind | AwsKind | HetznerKind

  /** The registry key of each adapter. */
  function NameOf(k: Kind): string {
    match k
    case LinodeKind => "linode"
    case AwsKind => "aws"
    case HetznerKind => "hetzner"
  }

  /** `providers.get(provider_name)` on the registry. */
  function Lookup(name: string): (r: Option<Kind>)
    ensures r.Some? ==> NameOf(r.value) == name
    ensures r.None? ==> forall k: Kind :: NameOf(k) != name
  {
    if name == "linode" then Some(LinodeKind)
    else if name == "aws" then Some(AwsKind)
    else if name == "hetzner" then Some(HetznerKind)
    else None
  }

  /** The registry holds exactly the three names, one adapter each. */
  lemma RegistryIsExactlyThree(name: string)
    ensures Lookup(name).Some? <==> name in ["linode", "aws", "hetzner"]
    ensures forall k: Kind :: Lookup(NameOf(k)) == Some(k)
  {
    forall k: Kind ensures Lookup(NameOf(k)) == Some(k) {
      match k
      case LinodeKind =>
      case AwsKind =>
      case HetznerKind =>
    }
  }

  /** The vendor replies during one command, one world per vendor. */
  datatype Cloud = Cloud(linode: Linode.World, aws: Aws.World, hetzner: Hetzner.World)

  /** What a spawn draws on besides its arguments: the random characters of
      the instance name and of a key name, and the content of each readable
      key file. */
  datatype SpawnInputs = SpawnInputs(namePicks: seq<nat>, keyPicks: seq<nat>, keyFiles: string -> Option<string>)

  predicate WellDrawn(d: SpawnInputs) {
    |d.namePicks| == 12 && |d.keyPicks| == 8
  }

  /** A provider configuration as the adapters read it. */
  function ObjectFields(j: Json): Dict {
    match j
    case JObj(d) => d
    case _ => []
  }

  // ---------------------------------------------------------------------
  // The adapter operations, by kind

  function ListOf(k: Kind, cfg: Dict, name: Option<string>, cloud: Cloud, now: int): Result<seq<Instance>> {
    match k
    case LinodeKind => Linode.ListSpec(cfg, name, cloud.linode, now)
    case AwsKind => Aws.ListSpec(name, cloud.aws, now)
    case HetznerKind => Hetzner.ListSpec(name, cloud.hetzner, now)
  }

  function ListExpiredOf(k: Kind, cfg: Dict, name: Option<string>, cloud: Cloud, now: int): Result<seq<Instance>> {
    match ListOf(k, cfg, name, cloud, now)
    case Err(e) => Err(e)
    case Ok(rs) => Ok(ExpiredOnly(rs))
  }

  function TerminateOf(k: Kind, cfg: Dict, name: Option<string>, cloud: Cloud, now: int, identifier: string): Result<()> {
    match k
    case LinodeKind => Linode.TerminateSpec(cfg, name, cloud.linode, now, identifier).0
    case AwsKind => Aws.TerminateSpec(cloud.aws, identifier).0
    case HetznerKind => Hetzner.TerminateSpec(name, cloud.hetzner, now, identifier).0
  }

  function SpawnOf(k: Kind, cfg: Dict, name: Option<string>,
                   image: Option<string>, region: Option<string>, sshKeyPath: Option<string>, lifetime: Option<int>,
                   now: int, d: SpawnInputs, cloud: Cloud): Result<Instance>
    requires WellDrawn(d)
  {
    match k
    case LinodeKind =>
      Linode.SpawnSpec(cfg, name, image, region, sshKeyPath, lifetime, now, d.namePicks, d.keyFiles, cloud.linode).0
    case AwsKind =>
      Aws.SpawnSpec(cfg, name, image, region, sshKeyPath, lifetime, now, d.namePicks, d.keyPicks, d.keyFiles, cloud.aws).0
    case HetznerKind =>
      Hetzner.SpawnSpec(cfg, name, image, region, sshKeyPath, lifetime, now, d.namePicks, d.keyPicks, d.keyFiles, cloud.hetzner).0
  }

  // ---------------------------------------------------------------------
  // The adapter contract

  /** Records of the listing shape, all stamped with the adapter's name. */
  predicate ListShaped(rs: seq<Instance>, name: Option<string>, now: int) {
    forall i :: 0 <= i < |rs| ==> IsListRecord(rs[i], now) && rs[i].provider == name
  }

  lemma LinodeListShaped(cfg: Dict, name: Option<string>, world: Linode.World, now: int)
    requires Linode.ListSpec(cfg, name, world, now).Ok?
    ensures ListShaped(Linode.ListSpec(cfg, name, world, now).value, name, now)
  {
    var ss := world.servers.body;
    Linode.RecordsOfTagged(ss, name, now);
    var rs := Linode.ListSpec(cfg, name, world, now).value;
    var tagged := Linode.Tagged(ss);
    forall i | 0 <= i < |rs| ensures IsListRecord(rs[i], now) && rs[i].provider == name {
      assert Linode.ToRecord(tagged[i], name, now) == Ok(rs[i]);
    }
  }

  lemma AwsListShaped(name: Option<string>, world: Aws.World, now: int)
    requires Aws.ListSpec(name, world, now).Ok?
    ensures ListShaped(Aws.ListSpec(name, world, now).value, name, now)
  {
    Aws.ListedAreTaggedAndLive(name, world, now);
    var rs := Aws.ListSpec(name, world, now).value;
    var xs := Aws.FilterInstances(Aws.Flatten(world.inventory.value), Aws.LIST_FILTER);
    forall i | 0 <= i < |rs| ensures IsListRecord(rs[i], now) && rs[i].provider == name {
      Aws.ToRecordFields(xs[i], name, now);
    }
  }

  lemma HetznerListShaped(name: Option<string>, world: Hetzner.World, now: int)
    requires Hetzner.ListSpec(name, world, now).Ok?
    ensures ListShaped(Hetzner.ListSpec(name, world, now).value, name, now)
  {
    Hetzner.ListedAreSelected(name, world, now);
    var rs := Hetzner.ListSpec(name, world, now).value;
    var sel := Hetzner.SelectOwned(world.servers.body);
    forall i | 0 <= i < |rs| ensures IsListRecord(rs[i], now) && rs[i].provider == name {
      Hetzner.ToRecordFields(sel[i], name, now);
    }
  }

  /** list_instances, of every adapter, returns records of the listing shape
      carrying the adapter's name. */
  lemma ListContract(k: Kind, cfg: Dict, name: Option<string>, cloud: Cloud, now: int)
    requires ListOf(k, cfg, name, cloud, now).Ok?
    ensures ListShaped(ListOf(k, cfg, name, cloud, now).value, name, now)
  {
    match k
    case LinodeKind => LinodeListShaped(cfg, name, cloud.linode, now);
    case AwsKind => AwsListShaped(name, cloud.aws, now);
    case HetznerKind => HetznerListShaped(name, cloud.hetzner, now);
  }

  /** list_expired_instances returns records of the listing shape, only
      expired ones, and every expired listed record. */
  lemma ListExpiredContract(k: Kind, cfg: Dict, name: Option<string>, cloud: Cloud, now: int)
    requires ListExpiredOf(k, cfg, name, cloud, now).Ok?
    ensures var rs := ListExpiredOf(k, cfg, name, cloud, now).value;
      && ListShaped(rs, name, now)
      && (forall i :: 0 <= i < |rs| ==> IsExpired(rs[i].creationTime, rs[i].lifetimeMinutes, now))
      && (forall x :: x in ListOf(k, cfg, name, cloud, now).value && x.isExpired == Some(true) ==> x in rs)
  {
    ListContract(k, cfg, name, cloud, now);
    var all := ListOf(k, cfg, name, cloud, now).value;
    var rs := ExpiredOnly(all);
    forall i | 0 <= i < |rs| ensures IsListRecord(rs[i], now) && rs[i].provider == name && rs[i].isExpired == Some(true) {
      assert rs[i] in rs;
      var j :| 0 <= j < |all| && all[j] == rs[i];
    }
  }

  /** spawn_instance, of every adapter, returns a record of the spawn shape
      carrying the adapter's name. */
  lemma SpawnContract(k: Kind, cfg: Dict, name: Option<string>,
                      image: Option<string>, region: Option<string>, sshKeyPath: Option<string>, lifetime: Option<int>,
                      now: int, d: SpawnInputs, cloud: Cloud)
    requires WellDrawn(d)
    requires SpawnOf(k, cfg, name, image, region, sshKeyPath, lifetime, now, d, cloud).Ok?
    ensures var r := SpawnOf(k, cfg, name, image, region, sshKeyPath, lifetime, now, d, cloud).value;
      IsSpawnRecord(r) && r.provider == name && r.creationTime == now
  {
    if k == HetznerKind {
      Hetzner.SpawnRecordShape(cfg, name, image, region, sshKeyPath, lifetime, now,
                               d.namePicks, d.keyPicks, d.keyFiles, cloud.hetzner, now);
    }
  }

  // ---------------------------------------------------------------------
  // The adapter object

  class Provider {
    const kind: Kind
    const providerCfg: Dict
    var providerName: Option<string>

    /** ProviderBase.__init__: the configuration is kept as given and the
        name is left for the factory to set. */
    constructor(kind: Kind, providerCfg: Dict)
      ensures this.kind == kind && this.providerCfg == providerCfg && providerName.None?
    {
      this.kind := kind;
      this.providerCfg := providerCfg;
      providerName := None;
    }

    method ListInstances(cloud: Cloud, now: int) returns (r: Result<seq<Instance>>)
      ensures r == ListOf(kind, providerCfg, providerName, cloud, now)
    {
      match kind {
        case LinodeKind =>
          var calls;
          r, calls := Linode.ListInstances(providerCfg, providerName, cloud.linode, now);
        case AwsKind =>
          var calls;
          r, calls := Aws.ListInstances(providerName, cloud.aws, now);
        case HetznerKind =>
          r := Hetzner.ListInstances(providerName, cloud.hetzner, now);
      }
    }

    method ListExpiredInstances(cloud: Cloud, now: int) returns (r: Result<seq<Instance>>)
      ensures r == ListExpiredOf(kind, providerCfg, providerName, cloud, now)
    {
      match kind {
        case LinodeKind =>
          r := Linode.ListExpiredInstances(providerCfg, providerName, cloud.linode, now);
        case AwsKind =>
          r := Aws.ListExpiredInstances(providerName, cloud.aws, now);
        case HetznerKind =>
          r := Hetzner.ListExpiredInstances(providerName, cloud.hetzner, now);
      }
    }

    method TerminateInstance(cloud: Cloud, now: int, identifier: string) returns (r: Result<()>)
      ensures r == TerminateOf(kind, providerCfg, providerName, cloud, now, identifier)
    {
      match kind {
        case LinodeKind =>
          var calls;
          r, calls := Linode.TerminateInstance(providerCfg, providerName, cloud.linode, now, identifier);
        case AwsKind =>
          var calls;
          r, calls := Aws.TerminateInstance(cloud.aws, identifier);
        case HetznerKind =>
          var calls;
          r, calls := Hetzner.TerminateInstance(providerName, cloud.hetzner, now, identifier);
      }
    }

    method SpawnInstance(image: Option<string>, region: Option<string>, sshKeyPath: Option<string>,
                         lifetime: Option<int>, now: int, d: SpawnInputs, cloud: Cloud)
      returns (r: Result<Instance>)
      requires WellDrawn(d)
      ensures r == SpawnOf(kind, providerCfg, providerName, image, region, sshKeyPath, lifetime, now, d, cloud)
    {
      match kind {
        case LinodeKind =>
          r := Linode.SpawnSpec(providerCfg, providerName, image, region, sshKeyPath, lifetime, now,
                                d.namePicks, d.keyFiles, cloud.linode).0;
        case AwsKind =>
          var calls;
          r, calls := Aws.SpawnInstance(providerCfg, providerName, image, region, sshKeyPath, lifetime, now,
                                        d.namePicks, d.keyPicks, d.keyFiles, cloud.aws);
        case HetznerKind =>
          var calls;
          r, calls := Hetzner.SpawnInstance(providerCfg, providerName, image, region, sshKeyPath, lifetime, now,
                                            d.namePicks, d.keyPicks, d.keyFiles, cloud.hetzner);
      }
    }
  }

  // ---------------------------------------------------------------------
  // get_provider

  function UnknownProvider(name: string): Error {
    Error(ValueErr, "Unknown provider: " + name)
  }

  function EmptyConfig(name: string): Error {
    Error(ValueErr, "Missing or empty configuration for provider: " + name)
  }

  /** The factory's checks, in order: the name must be registered, the
      configuration truthy, and the adapter's own constructor must accept it
      (only Hetzner's checks anything). */
  function FactorySpec(name: string, cfg: Json): (r: Result<Kind>)
    ensures Lookup(name).None? ==> r == Err(UnknownProvider(name))
    ensures Lookup(name).Some? && !Truthy(cfg) ==> r == Err(EmptyConfig(name))
    ensures r.Ok? <==> Lookup(name).Some? && Truthy(cfg)
                       && (Lookup(name).value == HetznerKind ==> TruthyAt(ObjectFields(cfg), "api_key"))
    ensures r.Ok? ==> NameOf(r.value) == name
  {
    match Lookup(name)
    case None => Err(UnknownProvider(name))
    case Some(k) =>
      if !Truthy(cfg) then Err(EmptyConfig(name))
      else if k == HetznerKind then
        match Hetzner.CheckConfig(ObjectFields(cfg))
        case Err(e) => Err(e)
        case Ok(_) => Ok(k)
      else Ok(k)
  }

  method GetProvider(name: string, cfg: Json) returns (r: Result<Provider>)
    ensures FactorySpec(name, cfg).Err? ==> r == Err(FactorySpec(name, cfg).error)
    ensures FactorySpec(name, cfg).Ok? ==>
      && r.Ok? && fresh(r.value)
      && r.value.kind == FactorySpec(name, cfg).value
      && r.value.providerCfg == ObjectFields(cfg)
      && r.value.providerName == Some(name)
  {
    var checked := FactorySpec(name, cfg);
    if checked.Err? {
      return Err(checked.error);
    }
    var p := new Provider(checked.value, ObjectFields(cfg));
    p.providerName := Some(name);
    r := Ok(p);
  }
}
