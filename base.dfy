// The normalised instance record every adapter produces, the expiry test the
// three adapters share, and the pieces of the adapter contract that do not
// depend on a vendor.

module Base {
  import opened Common

  /** The record an adapter returns. `isExpired` is present only on records
      produced by a listing; `lifetimeLeft` is added by the list command. */
  datatype Instance = Instance(
    provider: Option<string>,   // the adapter's provider_name
    instanceId: string,
    name: string,               // the "label" key
    ip: string,
    status: string,
    region: string,
    image: string,
    creationTime: int,
    lifetimeMinutes: int,
    isExpired: Option<bool>,
    lifetimeLeft: Option<real>)

  const EXPIRED_SUFFIX: string := " (expired)"
  const NO_IP: string := "No IP Assigned"
  const UNKNOWN: string := "Unknown"
  const DEFAULT_LIFETIME: int := 60
  const DEFAULT_KEY_PATH: string := "~/.ssh/id_ed25519.pub"

  /** `ssh_key_path or provider_cfg.get("ssh_key_path", "~/.ssh/id_ed25519.pub")`:
      the file spawn_instance reads the public key from. */
  function KeyPath(cfg: Dict, sshKeyPath: Option<string>): (path: string)
    ensures sshKeyPath.Some? && sshKeyPath.value != "" ==> path == sshKeyPath.value
    ensures (sshKeyPath.None? || sshKeyPath.value == "") && Get(cfg, "ssh_key_path").Some? ==>
      path == AsText(Get(cfg, "ssh_key_path").value)
    ensures (sshKeyPath.None? || sshKeyPath.value == "") && Get(cfg, "ssh_key_path").None? ==>
      path == DEFAULT_KEY_PATH
  {
    OrText(sshKeyPath, AsText(GetOr(cfg, "ssh_key_path", JStr(DEFAULT_KEY_PATH))))
  }

  /** The strict expiry test: more seconds have elapsed than the lifetime allows. */
  predicate IsExpired(creationTime: int, lifetimeMinutes: int, now: int) {
    now - creationTime > lifetimeMinutes * 60
  }

  lemma ExpiryBoundary(creationTime: int, lifetimeMinutes: int)
    ensures !IsExpired(creationTime, lifetimeMinutes, creationTime + lifetimeMinutes * 60)
    ensures IsExpired(creationTime, lifetimeMinutes, creationTime + lifetimeMinutes * 60 + 1)
  {
  }

  /** (creation_time, lifetime_minutes, is_expired) as the helpers return it. */
  datatype ExpiryInfo = ExpiryInfo(creationTime: int, lifetimeMinutes: int, expired: bool)

  function MakeExpiry(creationTime: int, lifetimeMinutes: int, now: int): (e: ExpiryInfo)
    ensures e.creationTime == creationTime && e.lifetimeMinutes == lifetimeMinutes
    ensures e.expired <==> now - creationTime > lifetimeMinutes * 60
  {
    ExpiryInfo(creationTime, lifetimeMinutes, IsExpired(creationTime, lifetimeMinutes, now))
  }

  /** The listed status: the vendor status, suffixed when the instance is expired. */
  function MarkStatus(base: string, expired: bool): (s: string)
    ensures expired ==> s == base + EXPIRED_SUFFIX
    ensures !expired ==> s == base
  {
    if expired then base + EXPIRED_SUFFIX else base
  }

  // ---------------------------------------------------------------------
  // The listing loops of AWS and Hetzner: every vendor item is mapped to its
  // record in order, and the first item that does not map ends the loop.

  function MapRecords<T>(xs: seq<T>, f: T -> Result<Instance>): Result<seq<Instance>>
    decreases |xs|
  {
    if xs == [] then Ok([])
    else
      match MapRecords(xs[..|xs| - 1], f)
      case Err(e) => Err(e)
      case Ok(rs) =>
        match f(xs[|xs| - 1])
        case Err(e) => Err(e)
        case Ok(r) => Ok(rs + [r])
  }

  /** An error on a prefix is the error of the whole listing. */
  lemma {:induction false} MapRecordsErrorPersists<T>(xs: seq<T>, k: nat, f: T -> Result<Instance>)
    requires k <= |xs| && MapRecords(xs[..k], f).Err?
    ensures MapRecords(xs, f) == MapRecords(xs[..k], f)
    decreases |xs| - k
  {
    if k < |xs| {
      assert xs[..k + 1][..k] == xs[..k];
      MapRecordsErrorPersists(xs, k + 1, f);
    } else {
      assert xs[..k] == xs;
    }
  }

  /** The listing succeeds exactly when every item maps, and then holds one
      record per item, in order. */
  lemma {:induction false} MapRecordsEach<T>(xs: seq<T>, f: T -> Result<Instance>)
    ensures MapRecords(xs, f).Ok? <==> forall i :: 0 <= i < |xs| ==> f(xs[i]).Ok?
    ensures MapRecords(xs, f).Ok? ==>
      var rs := MapRecords(xs, f).value;
      |rs| == |xs| && forall i :: 0 <= i < |xs| ==> f(xs[i]) == Ok(rs[i])
    decreases |xs|
  {
    if xs != [] {
      var front := xs[..|xs| - 1];
      MapRecordsEach(front, f);
      assert forall i :: 0 <= i < |front| ==> front[i] == xs[i];
    }
  }

  /** One more item: it fails the listing or adds its record at the end. */
  lemma MapRecordsSnoc<T>(xs: seq<T>, x: T, f: T -> Result<Instance>)
    requires MapRecords(xs, f).Ok?
    ensures f(x).Err? ==> MapRecords(xs + [x], f) == Err(f(x).error)
    ensures f(x).Ok? ==> MapRecords(xs + [x], f) == Ok(MapRecords(xs, f).value + [f(x).value])
  {
    assert (xs + [x])[..|xs|] == xs;
  }

  /** The listing loop itself: append each item's record, stopping at the
      first item that does not map. */
  method MapEach<T>(xs: seq<T>, f: T -> Result<Instance>) returns (r: Result<seq<Instance>>)
    ensures r == MapRecords(xs, f)
  {
    var result: seq<Instance> := [];
    var i := 0;
    while i < |xs|
      invariant 0 <= i <= |xs|
      invariant MapRecords(xs[..i], f) == Ok(result)
    {
      assert xs[..i + 1] == xs[..i] + [xs[i]];
      MapRecordsSnoc(xs[..i], xs[i], f);
      var record := f(xs[i]);
      if record.Err? {
        MapRecordsErrorPersists(xs, i + 1, f);
        return Err(record.error);
      }
      result := result + [record.value];
      i := i + 1;
    }
    assert xs[..|xs|] == xs;
    r := Ok(result);
  }

  /** A record as spawn_instance returns it. */
  predicate IsSpawnRecord(r: Instance) {
    r.isExpired.None? && r.lifetimeLeft.None?
  }

  /** A record as list_instances returns it, evaluated at `now`: it carries an
      expiry flag that agrees with the strict test, and no lifetime_left yet. */
  predicate IsListRecord(r: Instance, now: int) {
    && r.isExpired == Some(IsExpired(r.creationTime, r.lifetimeMinutes, now))
    && r.lifetimeLeft.None?
  }

  /** `[inst for inst in instances if inst['is_expired']]`. */
  function ExpiredOnly(s: seq<Instance>): (r: seq<Instance>)
    ensures |r| <= |s|
    ensures forall x :: x in r <==> x in s && x.isExpired == Some(true)
  {
    if s == [] then []
    else (if s[0].isExpired == Some(true) then [s[0]] else []) + ExpiredOnly(s[1..])
  }

  lemma {:induction false} ExpiredOnlyAppend(s: seq<Instance>, t: seq<Instance>)
    ensures ExpiredOnly(s + t) == ExpiredOnly(s) + ExpiredOnly(t)
    decreases |s|
  {
    if s == [] {
      assert s + t == t;
    } else {
      assert (s + t)[1..] == s[1..] + t;
      ExpiredOnlyAppend(s[1..], t);
    }
  }

  // ---------------------------------------------------------------------
  // _get_instance_expiry_info (AWS tags, Hetzner labels): the two keys
  // read from a key/value list, last pair winning, defaults "0" and "60".


  const CREATION_KEY: string := "gmab-creation-time"
  const LIFETIME_KEY: string := "gmab-lifetime"
  const PARSE_ERROR: Error := Error(ValueErr, "invalid literal for int() with base 10")

  /** `int(pairs.get(key, default))` on the dict built from the pairs. */
  function PairInt(pairs: seq<(string, string)>, key: string, default: string): Option<int> {
    match LastValue(pairs, key)
    case Some(v) => ParseInt(v)
    case None => ParseInt(default)
  }

  function ExpiryFromPairs(pairs: seq<(string, string)>, now: int): (r: Result<ExpiryInfo>)
    ensures r.Ok? <==> PairInt(pairs, CREATION_KEY, "0").Some? && PairInt(pairs, LIFETIME_KEY, "60").Some?
    ensures r.Ok? ==> r.value == MakeExpiry(PairInt(pairs, CREATION_KEY, "0").value, PairInt(pairs, LIFETIME_KEY, "60").value, now)
  {
    match PairInt(pairs, CREATION_KEY, "0")
    case None => Err(PARSE_ERROR)
    case Some(c) =>
      match PairInt(pairs, LIFETIME_KEY, "60")
      case None => Err(PARSE_ERROR)
      case Some(l) => Ok(MakeExpiry(c, l, now))
  }

  lemma DefaultTexts()
    ensures ParseInt("0") == Some(0) && ParseInt("60") == Some(60)
  {
    ParseIntOfIntToString(0);
    ParseIntOfIntToString(60);
    assert IntToString(60) == "60";
  }

  /** Without the two pairs the defaults 0 and 60 apply. */
  lemma MissingKeysGiveDefaults(pairs: seq<(string, string)>, now: int)
    requires forall i :: 0 <= i < |pairs| ==> pairs[i].0 != CREATION_KEY && pairs[i].0 != LIFETIME_KEY
    ensures ExpiryFromPairs(pairs, now) == Ok(ExpiryInfo(0, 60, now > 3600))
  {
    LastValueSpec(pairs, CREATION_KEY);
    LastValueSpec(pairs, LIFETIME_KEY);
    DefaultTexts();
  }

  /** A later duplicate key wins: appending a creation pair decides the creation
      time, whatever came before it. */
  lemma LaterCreationPairWins(pairs: seq<(string, string)>, n: int, now: int)
    requires PairInt(pairs, LIFETIME_KEY, "60").Some?
    ensures var t := pairs + [(CREATION_KEY, IntToString(n))];
      ExpiryFromPairs(t, now) == Ok(MakeExpiry(n, PairInt(pairs, LIFETIME_KEY, "60").value, now))
  {
    var t := pairs + [(CREATION_KEY, IntToString(n))];
    assert t[..|t| - 1] == pairs;
    assert LastValue(t, LIFETIME_KEY) == LastValue(pairs, LIFETIME_KEY);
    ParseIntOfIntToString(n);
  }

  // ---------------------------------------------------------------------
  // generate_random_string: random.choices over lowercase letters and digits.
  // The random draws are a parameter: one index per character.

  const ALPHABET: string := "abcdefghijklmnopqrstuvwxyz0123456789"

  predicate IsLowerOrDigit(c: char) {
    ('a' <= c <= 'z') || ('0' <= c <= '9')
  }

  function RandomString(picks: seq<nat>): (r: string)
    ensures |r| == |picks|
    ensures forall i :: 0 <= i < |r| ==> IsLowerOrDigit(r[i]) && r[i] in ALPHABET
  {
    if picks == [] then []
    else
      var c := ALPHABET[picks[0] % |ALPHABET|];
      assert IsLowerOrDigit(c);
      [c] + RandomString(picks[1..])
  }

  /** A generated name: `prefix` followed by the drawn characters. */
  predicate HasGeneratedShape(name: string, prefix: string, n: nat) {
    && |name| == |prefix| + n
    && name[..|prefix|] == prefix
    && forall i :: |prefix| <= i < |name| ==> IsLowerOrDigit(name[i])
  }

  lemma GeneratedShape(prefix: string, picks: seq<nat>)
    ensures HasGeneratedShape(prefix + RandomString(picks), prefix, |picks|)
  {
    var name := prefix + RandomString(picks);
    forall i | |prefix| <= i < |name| ensures IsLowerOrDigit(name[i]) {
      assert name[i] == RandomString(picks)[i - |prefix|];
    }
  }

  // ---------------------------------------------------------------------
  // get_instance_id_by_label (Linode, Hetzner): the first listed record whose
  // label equals the given one.

  function FirstIdWithLabel(s: seq<Instance>, wanted: string): (r: Option<string>)
    ensures r.None? <==> forall i :: 0 <= i < |s| ==> s[i].name != wanted
    ensures r.Some? ==> exists i :: 0 <= i < |s| && s[i].name == wanted && s[i].instanceId == r.value
                          && forall j :: 0 <= j < i ==> s[j].name != wanted
  {
    if s == [] then None
    else if s[0].name == wanted then Some(s[0].instanceId)
    else
      var r := FirstIdWithLabel(s[1..], wanted);
      assert r.Some? ==> exists i :: 1 <= i < |s| && s[i].name == wanted && s[i].instanceId == r.value
                          && forall j :: 0 <= j < i ==> s[j].name != wanted by {
        if r.Some? {
          var i :| 0 <= i < |s[1..]| && s[1..][i].name == wanted && s[1..][i].instanceId == r.value
                   && forall j :: 0 <= j < i ==> s[1..][j].name != wanted;
          assert forall j :: 0 <= j < i + 1 ==> s[j].name != wanted by {
            forall j | 0 <= j < i + 1 ensures s[j].name != wanted {
              if j > 0 { assert s[j] == s[1..][j - 1]; }
            }
          }
        }
      }
      assert r.None? ==> forall i :: 0 <= i < |s| ==> s[i].name != wanted by {
        if r.None? {
          forall i | 0 <= i < |s| ensures s[i].name != wanted {
            if i > 0 { assert s[i] == s[1..][i - 1]; }
          }
        }
      }
      r
  }

  // ---------------------------------------------------------------------
  // get_config_prompts: each prompt offers the current value of its key,
  // else the adapter's default for it.

  function PromptDefaultsFrom(current: Dict, defaults: Dict): (p: Dict)
    ensures Keys(p) == Keys(defaults)
    ensures forall i :: 0 <= i < |p| ==> p[i].1 == GetOr(current, defaults[i].0, defaults[i].1)
  {
    if defaults == [] then []
    else [(defaults[0].0, GetOr(current, defaults[0].0, defaults[0].1))] + PromptDefaultsFrom(current, defaults[1..])
  }
}
