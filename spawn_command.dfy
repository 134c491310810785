// spawn_box: choosing the provider, region, image and lifetime from the
// arguments and the configuration, then spawning through the adapter. Every
// failure except a missing configuration comes back with one prefix.

module SpawnCommand {
  import opened Common
  import opened Base
  import opened Providers

  const FALLBACK_PROVIDER := "linode"
  const FALLBACK_REGION := "us-east"
  const FALLBACK_IMAGE := "linode/ubuntu22.04"
  const SPAWN_PREFIX := "Failed to spawn instance: "

  /** A configured integer; any other JSON value is read as no lifetime. */
  function AsInt(j: Json): Option<int> {
    match j
    case JInt(i) => Some(i)
    case _ => None
  }

  /** `provider_name or general_cfg.get("default_provider", "linode")`. */
  function ChosenProvider(providerName: Option<string>, general: Dict): string {
    OrText(providerName, AsText(GetOr(general, "default_provider", JStr(FALLBACK_PROVIDER))))
  }

  /** The values handed to the adapter. */
  datatype Choice = Choice(region: string, image: string, lifetime: Option<int>)

  /** `region or cfg.get(...)`, `image or cfg.get(...)` and
      `lifetime or general.get("default_lifetime_minutes", 60)`: an empty
      string and a zero lifetime count as not given. */
  function Choose(region: Option<string>, image: Option<string>, lifetime: Option<int>,
                  providerCfg: Dict, general: Dict): (c: Choice)
    ensures region.Some? && region.value != "" ==> c.region == region.value
    ensures image.Some? && image.value != "" ==> c.image == image.value
    ensures lifetime.Some? && lifetime.value != 0 ==> c.lifetime == lifetime
    ensures (region.None? || region.value == "") && !HasKey(providerCfg, "default_region") ==> c.region == FALLBACK_REGION
    ensures (image.None? || image.value == "") && !HasKey(providerCfg, "default_image") ==> c.image == FALLBACK_IMAGE
    ensures (lifetime.None? || lifetime.value == 0) && !HasKey(general, "default_lifetime_minutes") ==> c.lifetime == Some(DEFAULT_LIFETIME)
    ensures (region.None? || region.value == "") && Get(providerCfg, "default_region").Some? ==>
      c.region == AsText(Get(providerCfg, "default_region").value)
    ensures (image.None? || image.value == "") && Get(providerCfg, "default_image").Some? ==>
      c.image == AsText(Get(providerCfg, "default_image").value)
    ensures (lifetime.None? || lifetime.value == 0) && Get(general, "default_lifetime_minutes").Some? ==>
      c.lifetime == AsInt(Get(general, "default_lifetime_minutes").value)
  {
    Choice(
      OrText(region, AsText(GetOr(providerCfg, "default_region", JStr(FALLBACK_REGION)))),
      OrText(image, AsText(GetOr(providerCfg, "default_image", JStr(FALLBACK_IMAGE)))),
      if lifetime.Some? && lifetime.value != 0 then lifetime
      else AsInt(GetOr(general, "default_lifetime_minutes", JInt(DEFAULT_LIFETIME))))
  }

  function NotConfigured(name: string): Error {
    Error(ValueErr, "Provider '" + name + "' is not configured. Run 'gmab configure -p " + name + "' first.")
  }

  /** `general_cfg["ssh_key_path"]` on a missing key. */
  const MISSING_KEY_PATH := Error(Failure, "'ssh_key_path'")

  /** The handler around the whole command: a missing configuration passes
      through, every other error gains the prefix. */
  function SpawnFailure(e: Error): (w: Error)
    ensures e.kind == ConfigMissing ==> w == e
    ensures e.kind != ConfigMissing ==> w.kind == Failure && w.message == SPAWN_PREFIX + e.message
  {
    if e.kind == ConfigMissing then e else Wrap(SPAWN_PREFIX, e)
  }

  /** The steps inside the handler, each error returned unwrapped. */
  function SpawnSteps(providerName: Option<string>, region: Option<string>, image: Option<string>, lifetime: Option<int>,
                      general: Dict, pc: Dict, now: int, d: SpawnInputs, cloud: Cloud): Result<Instance>
    requires WellDrawn(d)
  {
    var name := ChosenProvider(providerName, general);
    match Get(pc, name)
    case None => Err(NotConfigured(name))
    case Some(cfg) =>
      if !Truthy(cfg) then Err(NotConfigured(name))
      else
        var c := Choose(region, image, lifetime, ObjectFields(cfg), general);
        match FactorySpec(name, cfg)
        case Err(e) => Err(e)
        case Ok(k) =>
          match Get(general, "ssh_key_path")
          case None => Err(MISSING_KEY_PATH)
          case Some(path) =>
            SpawnOf(k, ObjectFields(cfg), Some(name), Some(c.image), Some(c.region), Some(AsText(path)), c.lifetime, now, d, cloud)
  }

  function SpawnBoxSpec(providerName: Option<string>, region: Option<string>, image: Option<string>, lifetime: Option<int>,
                        general: Dict, pc: Dict, now: int, d: SpawnInputs, cloud: Cloud): Result<Instance>
    requires WellDrawn(d)
  {
    match SpawnSteps(providerName, region, image, lifetime, general, pc, now, d, cloud)
    case Err(e) => Err(SpawnFailure(e))
    case Ok(r) => Ok(r)
  }

  /** Every reported failure other than a missing configuration carries the
      prefix; an unconfigured provider is reported before any adapter or
      vendor reply is involved. */
  lemma SpawnErrorsPrefixed(providerName: Option<string>, region: Option<string>, image: Option<string>, lifetime: Option<int>,
                            general: Dict, pc: Dict, now: int, d: SpawnInputs, cloud: Cloud, other: Cloud)
    requires WellDrawn(d)
    ensures var r := SpawnBoxSpec(providerName, region, image, lifetime, general, pc, now, d, cloud);
      r.Err? && r.error.kind != ConfigMissing ==> StartsWith(r.error.message, SPAWN_PREFIX)
    ensures var name := ChosenProvider(providerName, general);
      !TruthyAt(pc, name) ==>
        && SpawnBoxSpec(providerName, region, image, lifetime, general, pc, now, d, cloud)
           == Err(Wrap(SPAWN_PREFIX, NotConfigured(name)))
        && SpawnBoxSpec(providerName, region, image, lifetime, general, pc, now, d, other)
           == SpawnBoxSpec(providerName, region, image, lifetime, general, pc, now, d, cloud)
  {
    var r := SpawnSteps(providerName, region, image, lifetime, general, pc, now, d, cloud);
    if r.Err? && r.error.kind != ConfigMissing {
      StartsWithAppend(SPAWN_PREFIX, r.error.message);
    }
  }

  /** Without a provider argument the general default is used, and "linode"
      when there is none; a zero lifetime is replaced like a missing one. */
  lemma SpawnDefaults(providerName: Option<string>, general: Dict, region: Option<string>, image: Option<string>, providerCfg: Dict)
    ensures (providerName.None? || providerName.value == "") && !HasKey(general, "default_provider")
            ==> ChosenProvider(providerName, general) == FALLBACK_PROVIDER
    ensures providerName.Some? && providerName.value != "" ==> ChosenProvider(providerName, general) == providerName.value
    ensures Choose(region, image, Some(0), providerCfg, general) == Choose(region, image, None, providerCfg, general)
  {
  }

  /** A spawned record is one of the spawn shape, stamped with the chosen
      provider's name and created now; the provider was configured and the
      general configuration names a key path. */
  lemma SpawnedRecord(providerName: Option<string>, region: Option<string>, image: Option<string>, lifetime: Option<int>,
                      general: Dict, pc: Dict, now: int, d: SpawnInputs, cloud: Cloud)
    requires WellDrawn(d)
    requires SpawnBoxSpec(providerName, region, image, lifetime, general, pc, now, d, cloud).Ok?
    ensures var r := SpawnBoxSpec(providerName, region, image, lifetime, general, pc, now, d, cloud).value;
      && IsSpawnRecord(r) && r.provider == Some(ChosenProvider(providerName, general)) && r.creationTime == now
      && TruthyAt(pc, ChosenProvider(providerName, general)) && HasKey(general, "ssh_key_path")
  {
    var name := ChosenProvider(providerName, general);
    var cfg := Get(pc, name).value;
    var c := Choose(region, image, lifetime, ObjectFields(cfg), general);
    var path := Get(general, "ssh_key_path").value;
    SpawnContract(FactorySpec(name, cfg).value, ObjectFields(cfg), Some(name), Some(c.image), Some(c.region),
                  Some(AsText(path)), c.lifetime, now, d, cloud);
  }

  method SpawnBox(providerName: Option<string>, region: Option<string>, image: Option<string>, lifetime: Option<int>,
                  general: Dict, pc: Dict, now: int, d: SpawnInputs, cloud: Cloud)
    returns (r: Result<Instance>)
    requires WellDrawn(d)
    ensures r == SpawnBoxSpec(providerName, region, image, lifetime, general, pc, now, d, cloud)
  {
    r := RunSpawnSteps(providerName, region, image, lifetime, general, pc, now, d, cloud);
    if r.Err? {
      r := Err(SpawnFailure(r.error));
    }
  }

  method RunSpawnSteps(providerName: Option<string>, region: Option<string>, image: Option<string>, lifetime: Option<int>,
                       general: Dict, pc: Dict, now: int, d: SpawnInputs, cloud: Cloud)
    returns (r: Result<Instance>)
    requires WellDrawn(d)
    ensures r == SpawnSteps(providerName, region, image, lifetime, general, pc, now, d, cloud)
  {
    var name := ChosenProvider(providerName, general);
    var cfg := Get(pc, name);
    if cfg.None? || !Truthy(cfg.value) {
      return Err(NotConfigured(name));
    }
    var c := Choose(region, image, lifetime, ObjectFields(cfg.value), general);
    var provider := GetProvider(name, cfg.value);
    if provider.Err? {
      return Err(provider.error);
    }
    var path := Get(general, "ssh_key_path");
    if path.None? {
      return Err(MISSING_KEY_PATH);
    }
    r := provider.value.SpawnInstance(Some(c.image), Some(c.region), Some(AsText(path.value)), c.lifetime, now, d, cloud);
  }
}
