// The terminate command's helpers: finding the provider an instance belongs
// to, and terminate_box, which terminates through the named provider or
// through the one found.

module TerminateCommand {
  import opened Common
  import opened Base
  import opened Providers

  const AWS_ID_PREFIX := "i-"

  predicate Matches(x: Instance, identifier: string) {
    x.instanceId == identifier || x.name == identifier
  }

  predicate AnyMatches(rs: seq<Instance>, identifier: string) {
    exists i :: 0 <= i < |rs| && Matches(rs[i], identifier)
  }

  /** Querying one configured provider: the factory's or the listing's error,
      or whether one of its records has that id or label. */
  function Probe(entry: (string, Json), identifier: string, cloud: Cloud, now: int): Result<bool> {
    match FactorySpec(entry.0, entry.1)
    case Err(e) => Err(e)
    case Ok(k) =>
      match ListOf(k, ObjectFields(entry.1), Some(entry.0), cloud, now)
      case Err(e) => Err(e)
      case Ok(rs) => Ok(AnyMatches(rs, identifier))
  }

  /** The providers in configuration order: the first one holding the
      instance; any failure on the way aborts the search. */
  function SearchSpec(pc: Dict, identifier: string, cloud: Cloud, now: int): Result<Option<(string, Json)>>
    decreases |pc|
  {
    if pc == [] then Ok(None)
    else
      match Probe(pc[0], identifier, cloud, now)
      case Err(e) => Err(e)
      case Ok(hit) => if hit then Ok(Some(pc[0])) else SearchSpec(pc[1..], identifier, cloud, now)
  }

  /** get_instance_provider: an id of the AWS form goes straight to a
      configured AWS provider, without any listing; otherwise the search. */
  function ResolveSpec(identifier: string, pc: Dict, cloud: Cloud, now: int): Result<Option<(string, Json)>> {
    if StartsWith(identifier, AWS_ID_PREFIX) && HasKey(pc, "aws") then
      var cfg := Get(pc, "aws").value;
      match FactorySpec("aws", cfg)
      case Err(e) => Err(e)
      case Ok(_) => Ok(Some(("aws", cfg)))
    else SearchSpec(pc, identifier, cloud, now)
  }

  /** Skipping providers that answered and hold no such instance. */
  lemma {:induction false} SearchSkipsMisses(pc: Dict, identifier: string, cloud: Cloud, now: int, j: nat)
    requires j <= |pc|
    requires forall i :: 0 <= i < j ==> Probe(pc[i], identifier, cloud, now) == Ok(false)
    ensures SearchSpec(pc, identifier, cloud, now) == SearchSpec(pc[j..], identifier, cloud, now)
    decreases j
  {
    if j > 0 {
      assert Probe(pc[0], identifier, cloud, now) == Ok(false);
      var tail := pc[1..];
      forall i | 0 <= i < j - 1 ensures Probe(tail[i], identifier, cloud, now) == Ok(false) {
        assert tail[i] == pc[i + 1];
      }
      SearchSkipsMisses(tail, identifier, cloud, now, j - 1);
      assert tail[j - 1..] == pc[j..];
    }
  }

  /** The search finds entry j when every provider before it answered
      without the instance and provider j holds it (SearchResultMeaning is
      the converse). */
  lemma SearchFindsFirstHolder(pc: Dict, identifier: string, cloud: Cloud, now: int, j: nat)
    requires j < |pc|
    ensures (forall i :: 0 <= i < j ==> Probe(pc[i], identifier, cloud, now) == Ok(false))
            && Probe(pc[j], identifier, cloud, now) == Ok(true)
            ==> SearchSpec(pc, identifier, cloud, now) == Ok(Some(pc[j]))
  {
    if (forall i :: 0 <= i < j ==> Probe(pc[i], identifier, cloud, now) == Ok(false)) {
      SearchSkipsMisses(pc, identifier, cloud, now, j);
      assert pc[j..][0] == pc[j];
    }
  }

  /** What a search result means: a found entry is a configured provider that
      holds the instance, every one before it answered without it, and the
      factory accepts it; no result means every provider answered without it. */
  lemma {:induction false} SearchResultMeaning(pc: Dict, identifier: string, cloud: Cloud, now: int)
    ensures var r := SearchSpec(pc, identifier, cloud, now);
      && (r.Ok? && r.value.Some? ==>
            exists j :: 0 <= j < |pc| && pc[j] == r.value.value
              && Probe(pc[j], identifier, cloud, now) == Ok(true)
              && forall i :: 0 <= i < j ==> Probe(pc[i], identifier, cloud, now) == Ok(false))
      && (r == Ok(None) ==> forall i :: 0 <= i < |pc| ==> Probe(pc[i], identifier, cloud, now) == Ok(false))
    decreases |pc|
  {
    if pc != [] && Probe(pc[0], identifier, cloud, now) == Ok(false) {
      var tail := pc[1..];
      SearchResultMeaning(tail, identifier, cloud, now);
      var r := SearchSpec(tail, identifier, cloud, now);
      if r.Ok? && r.value.Some? {
        var j :| 0 <= j < |tail| && tail[j] == r.value.value
          && Probe(tail[j], identifier, cloud, now) == Ok(true)
          && forall i :: 0 <= i < j ==> Probe(tail[i], identifier, cloud, now) == Ok(false);
        assert pc[j + 1] == tail[j];
        forall i | 0 <= i < j + 1 ensures Probe(pc[i], identifier, cloud, now) == Ok(false) {
          if i > 0 { assert pc[i] == tail[i - 1]; }
        }
      }
      if r == Ok(None) {
        forall i | 0 <= i < |pc| ensures Probe(pc[i], identifier, cloud, now) == Ok(false) {
          if i > 0 { assert pc[i] == tail[i - 1]; }
        }
      }
    }
  }

  /** The resolved provider is always one the factory accepts. */
  lemma ResolvedIsAccepted(identifier: string, pc: Dict, cloud: Cloud, now: int)
    requires ResolveSpec(identifier, pc, cloud, now).Ok? && ResolveSpec(identifier, pc, cloud, now).value.Some?
    ensures var e := ResolveSpec(identifier, pc, cloud, now).value.value;
      FactorySpec(e.0, e.1).Ok? && e in pc
  {
    if !(StartsWith(identifier, AWS_ID_PREFIX) && HasKey(pc, "aws")) {
      SearchResultMeaning(pc, identifier, cloud, now);
      var e := SearchSpec(pc, identifier, cloud, now).value.value;
      var j :| 0 <= j < |pc| && pc[j] == e && Probe(pc[j], identifier, cloud, now) == Ok(true);
    } else {
      var j :| 0 <= j < |pc| && pc[j] == ("aws", Get(pc, "aws").value);
    }
  }

  /** An id of the AWS form with AWS configured is resolved without querying
      any provider: the vendor replies play no part. */
  lemma AwsFormNeedsNoListing(identifier: string, pc: Dict, cloud: Cloud, other: Cloud, now: int)
    requires StartsWith(identifier, AWS_ID_PREFIX) && HasKey(pc, "aws")
    ensures ResolveSpec(identifier, pc, cloud, now) == ResolveSpec(identifier, pc, other, now)
    ensures ResolveSpec(identifier, pc, cloud, now).Ok? ==> ResolveSpec(identifier, pc, cloud, now).value == Some(("aws", Get(pc, "aws").value))
  {
  }

  /** An adapter object as the factory builds it from a configured entry. */
  predicate Built(p: Provider, name: string, cfg: Json)
    reads p
  {
    FactorySpec(name, cfg).Ok? && p.kind == FactorySpec(name, cfg).value
    && p.providerCfg == ObjectFields(cfg) && p.providerName == Some(name)
  }

  method GetInstanceProvider(identifier: string, pc: Dict, cloud: Cloud, now: int)
    returns (r: Result<Option<(string, Provider)>>)
    ensures var spec := ResolveSpec(identifier, pc, cloud, now);
      && (spec.Err? ==> r.Err? && r.error == spec.error)
      && (spec == Ok(None) ==> r == Ok(None))
      && (spec.Ok? && spec.value.Some? ==>
            r.Ok? && r.value.Some? && r.value.value.0 == spec.value.value.0
            && fresh(r.value.value.1) && Built(r.value.value.1, spec.value.value.0, spec.value.value.1))
  {
    if StartsWith(identifier, AWS_ID_PREFIX) && HasKey(pc, "aws") {
      var cfg := Get(pc, "aws").value;
      var provider := GetProvider("aws", cfg);
      if provider.Err? {
        return Err(provider.error);
      }
      return Ok(Some(("aws", provider.value)));
    }
    var i := 0;
    while i < |pc|
      invariant 0 <= i <= |pc|
      invariant SearchSpec(pc, identifier, cloud, now) == SearchSpec(pc[i..], identifier, cloud, now)
    {
      var tail := pc[i..];
      assert tail[0] == pc[i] && tail[1..] == pc[i + 1..];
      var probed := ProbeProvider(pc[i], identifier, cloud, now);
      if probed.Err? {
        return Err(probed.error);
      }
      if probed.value.Some? {
        return Ok(Some((pc[i].0, probed.value.value)));
      }
      i := i + 1;
    }
    assert pc[|pc|..] == [];
    r := Ok(None);
  }

  /** One round of the search: build the provider, list its instances and
      look for the id or label among them. */
  method ProbeProvider(entry: (string, Json), identifier: string, cloud: Cloud, now: int)
    returns (r: Result<Option<Provider>>)
    ensures var spec := Probe(entry, identifier, cloud, now);
      && (spec.Err? ==> r.Err? && r.error == spec.error)
      && (spec == Ok(false) ==> r == Ok(None))
      && (spec == Ok(true) ==> r.Ok? && r.value.Some? && fresh(r.value.value) && Built(r.value.value, entry.0, entry.1))
  {
    var name, cfg := entry.0, entry.1;
    var provider := GetProvider(name, cfg);
    if provider.Err? {
      return Err(provider.error);
    }
    var instances := provider.value.ListInstances(cloud, now);
    if instances.Err? {
      return Err(instances.error);
    }
    var rs := instances.value;
    for j := 0 to |rs|
      invariant forall k :: 0 <= k < j ==> !Matches(rs[k], identifier)
    {
      if rs[j].instanceId == identifier || rs[j].name == identifier {
        assert Matches(rs[j], identifier);
        return Ok(Some(provider.value));
      }
    }
    assert !AnyMatches(rs, identifier);
    r := Ok(None);
  }

  // ---------------------------------------------------------------------
  // terminate_box

  function NotInProviders(name: string): Error {
    Error(ValueErr, "Provider '" + name + "' not found in providers.json")
  }

  function Undetermined(identifier: string): Error {
    Error(ValueErr, "Could not determine provider for instance '" + identifier + "'")
  }

  /** Terminating through a configured entry; the provider name is what the
      confirmation message reports. */
  function TerminateWith(name: string, cfg: Json, identifier: string, cloud: Cloud, now: int): Result<string> {
    match FactorySpec(name, cfg)
    case Err(e) => Err(e)
    case Ok(k) =>
      match TerminateOf(k, ObjectFields(cfg), Some(name), cloud, now, identifier)
      case Err(e) => Err(e)
      case Ok(_) => Ok(name)
  }

  /** A non-empty provider name is used as given and must have a truthy
      configuration; otherwise the provider is resolved from the id. */
  function TerminateBoxSpec(identifier: string, providerName: Option<string>, pc: Dict, cloud: Cloud, now: int): Result<string> {
    if providerName.Some? && providerName.value != "" then
      var name := providerName.value;
      match Get(pc, name)
      case None => Err(NotInProviders(name))
      case Some(cfg) => if !Truthy(cfg) then Err(NotInProviders(name)) else TerminateWith(name, cfg, identifier, cloud, now)
    else
      match ResolveSpec(identifier, pc, cloud, now)
      case Err(e) => Err(e)
      case Ok(found) =>
        match found
        case None => Err(Undetermined(identifier))
        case Some(entry) => TerminateWith(entry.0, entry.1, identifier, cloud, now)
  }

  /** A termination that succeeds went through a configured provider the
      factory accepts: the named one, or the resolved one. */
  lemma TerminatedThroughConfigured(identifier: string, providerName: Option<string>, pc: Dict, cloud: Cloud, now: int)
    requires TerminateBoxSpec(identifier, providerName, pc, cloud, now).Ok?
    ensures var name := TerminateBoxSpec(identifier, providerName, pc, cloud, now).value;
      && HasKey(pc, name)
      && (providerName.Some? && providerName.value != "" ==>
            name == providerName.value && FactorySpec(name, Get(pc, name).value).Ok?)
      && (!(providerName.Some? && providerName.value != "") ==>
            var found := ResolveSpec(identifier, pc, cloud, now);
            found.Ok? && found.value.Some? && found.value.value.0 == name
            && found.value.value in pc && FactorySpec(name, found.value.value.1).Ok?)
  {
    if !(providerName.Some? && providerName.value != "") {
      ResolvedIsAccepted(identifier, pc, cloud, now);
      var e := ResolveSpec(identifier, pc, cloud, now).value.value;
      var j :| 0 <= j < |pc| && pc[j] == e;
    }
  }

  method TerminateBox(identifier: string, providerName: Option<string>, pc: Dict, cloud: Cloud, now: int)
    returns (r: Result<string>)
    ensures r == TerminateBoxSpec(identifier, providerName, pc, cloud, now)
  {
    var name: string;
    var provider: Provider;
    if providerName.Some? && providerName.value != "" {
      name := providerName.value;
      var cfg := Get(pc, name);
      if cfg.None? || !Truthy(cfg.value) {
        return Err(NotInProviders(name));
      }
      var built := GetProvider(name, cfg.value);
      if built.Err? {
        return Err(built.error);
      }
      provider := built.value;
    } else {
      var found := GetInstanceProvider(identifier, pc, cloud, now);
      if found.Err? {
        return Err(found.error);
      }
      if found.value.None? {
        return Err(Undetermined(identifier));
      }
      name, provider := found.value.value.0, found.value.value.1;
    }
    var done := provider.TerminateInstance(cloud, now, identifier);
    if done.Err? {
      return Err(done.error);
    }
    r := Ok(name);
  }
}
