// The list command: the lifetime left of a record, and list_boxes, which
// gathers the records of one named provider or of every configured one,
// annotates each with its lifetime left and sorts them, longest first.

module ListCommand {
  import opened Common
  import opened Base
  import opened Providers
  import opened Sorting

  // ---------------------------------------------------------------------
  // get_lifetime_left, over the reals (the source divides in floating point)

  function Max0(x: real): real { if x < 0.0 then 0.0 else x }

  function LifetimeLeft(creationTime: int, lifetimeMinutes: int, now: int): (r: real)
    ensures r >= 0.0
  {
    Max0(lifetimeMinutes as real - (now - creationTime) as real / 60.0)
  }

  /** `instance.get('creation_time', 0)` and `instance.get('lifetime_minutes', 60)`. */
  function LifetimeLeftOf(creationTime: Option<int>, lifetimeMinutes: Option<int>, now: int): real {
    LifetimeLeft(if creationTime.Some? then creationTime.value else 0,
                 if lifetimeMinutes.Some? then lifetimeMinutes.value else DEFAULT_LIFETIME, now)
  }

  /** Nothing is left exactly when the whole lifetime has elapsed. */
  lemma LifetimeLeftZero(creationTime: int, lifetimeMinutes: int, now: int)
    ensures LifetimeLeft(creationTime, lifetimeMinutes, now) == 0.0 <==> now - creationTime >= lifetimeMinutes * 60
    ensures LifetimeLeft(creationTime, lifetimeMinutes, now) > 0.0 ==>
      LifetimeLeft(creationTime, lifetimeMinutes, now) == lifetimeMinutes as real - (now - creationTime) as real / 60.0
  {
    var elapsed := (now - creationTime) as real;
    assert elapsed / 60.0 >= lifetimeMinutes as real <==> elapsed >= (lifetimeMinutes * 60) as real;
  }

  /** At the last second of the lifetime nothing is left, yet the instance is
      not expired: the expiry test is strict and this one is not. */
  lemma ZeroLeftBeforeExpiry(creationTime: int, lifetimeMinutes: int)
    ensures LifetimeLeft(creationTime, lifetimeMinutes, creationTime + lifetimeMinutes * 60) == 0.0
    ensures !IsExpired(creationTime, lifetimeMinutes, creationTime + lifetimeMinutes * 60)
  {
    LifetimeLeftZero(creationTime, lifetimeMinutes, creationTime + lifetimeMinutes * 60);
  }

  /** A record missing both keys is read as created at 0 with the default
      lifetime of 60 minutes. */
  lemma MissingKeysDefault(now: int)
    ensures LifetimeLeftOf(None, None, now) == LifetimeLeft(0, 60, now)
    ensures now >= 3600 ==> LifetimeLeftOf(None, None, now) == 0.0
  {
    LifetimeLeftZero(0, 60, now);
  }

  /** `instance['lifetime_left'] = get_lifetime_left(instance)`. */
  function Annotate(x: Instance, now: int): Instance {
    x.(lifetimeLeft := Some(LifetimeLeftOf(Some(x.creationTime), Some(x.lifetimeMinutes), now)))
  }

  function Annotated(s: seq<Instance>, now: int): (r: seq<Instance>)
    ensures |r| == |s|
    ensures forall i :: 0 <= i < |s| ==> r[i] == Annotate(s[i], now)
  {
    if s == [] then [] else Annotated(s[..|s| - 1], now) + [Annotate(s[|s| - 1], now)]
  }

  // ---------------------------------------------------------------------
  // list_boxes

  /** What one configured provider adds in the all-providers mode: its
      listing, or nothing when the factory or the listing fails. */
  function Contribution(name: string, cfg: Json, cloud: Cloud, now: int): seq<Instance> {
    match FactorySpec(name, cfg)
    case Err(_) => []
    case Ok(k) =>
      match ListOf(k, ObjectFields(cfg), Some(name), cloud, now)
      case Err(_) => []
      case Ok(rs) => rs
  }

  /** The providers visited in configuration order, results concatenated. */
  function CollectAll(pc: Dict, cloud: Cloud, now: int): seq<Instance>
    decreases |pc|
  {
    if pc == [] then []
    else CollectAll(pc[..|pc| - 1], cloud, now) + Contribution(pc[|pc| - 1].0, pc[|pc| - 1].1, cloud, now)
  }

  lemma {:induction false} CollectAllAppend(a: Dict, b: Dict, cloud: Cloud, now: int)
    ensures CollectAll(a + b, cloud, now) == CollectAll(a, cloud, now) + CollectAll(b, cloud, now)
    decreases |b|
  {
    if b == [] {
      assert a + b == a;
    } else {
      var b' := b[..|b| - 1];
      assert (a + b)[..|a + b| - 1] == a + b';
      CollectAllAppend(a, b', cloud, now);
    }
  }

  /** A provider whose construction or listing fails contributes nothing, and
      the providers after it are still visited. */
  lemma FailingProviderSkipped(a: Dict, name: string, cfg: Json, b: Dict, cloud: Cloud, now: int)
    requires FactorySpec(name, cfg).Err? || ListOf(FactorySpec(name, cfg).value, ObjectFields(cfg), Some(name), cloud, now).Err?
    ensures CollectAll(a + [(name, cfg)] + b, cloud, now) == CollectAll(a, cloud, now) + CollectAll(b, cloud, now)
  {
    var one := [(name, cfg)];
    var front := a + one;
    var ca, cb := CollectAll(a, cloud, now), CollectAll(b, cloud, now);
    assert CollectAll(one, cloud, now) == [] by {
      FailureContributesNothing(name, cfg, cloud, now);
      SingleCollected(name, cfg, cloud, now);
    }
    assert CollectAll(front, cloud, now) == ca by {
      CollectAllAppend(a, one, cloud, now);
    }
    assert CollectAll(front + b, cloud, now) == ca + cb by {
      CollectAllAppend(front, b, cloud, now);
    }
  }

  lemma FailureContributesNothing(name: string, cfg: Json, cloud: Cloud, now: int)
    requires FactorySpec(name, cfg).Err? || ListOf(FactorySpec(name, cfg).value, ObjectFields(cfg), Some(name), cloud, now).Err?
    ensures Contribution(name, cfg, cloud, now) == []
  {
  }

  lemma SingleCollected(name: string, cfg: Json, cloud: Cloud, now: int)
    ensures CollectAll([(name, cfg)], cloud, now) == Contribution(name, cfg, cloud, now)
  {
    assert [(name, cfg)][..0] == [];
  }

  function NotConfigured(name: string): Error {
    Error(ValueErr, "Provider configuration for '" + name + "' not found.")
  }

  /** The named mode: a missing or falsy configuration, a factory error and a
      listing error all propagate. */
  function CollectNamed(name: string, pc: Dict, cloud: Cloud, now: int): (r: Result<seq<Instance>>)
    ensures Get(pc, name).None? || !Truthy(Get(pc, name).value) ==> r == Err(NotConfigured(name))
  {
    match Get(pc, name)
    case None => Err(NotConfigured(name))
    case Some(cfg) =>
      if !Truthy(cfg) then Err(NotConfigured(name))
      else
        match FactorySpec(name, cfg)
        case Err(e) => Err(e)
        case Ok(k) => ListOf(k, ObjectFields(cfg), Some(name), cloud, now)
  }

  function Collected(providerName: Option<string>, pc: Dict, cloud: Cloud, now: int): Result<seq<Instance>> {
    if providerName.None? then Ok(CollectAll(pc, cloud, now)) else CollectNamed(providerName.value, pc, cloud, now)
  }

  function ListBoxesSpec(providerName: Option<string>, pc: Dict, cloud: Cloud, now: int): Result<seq<Instance>> {
    match Collected(providerName, pc, cloud, now)
    case Err(e) => Err(e)
    case Ok(rs) => Ok(SortDesc(Annotated(rs, now)))
  }

  /** The output is the collected records, each annotated with its lifetime
      left and nothing else changed, reordered by non-increasing lifetime
      left, equal ones in collection order. */
  lemma ListBoxesOrdered(providerName: Option<string>, pc: Dict, cloud: Cloud, now: int)
    requires ListBoxesSpec(providerName, pc, cloud, now).Ok?
    ensures var out := ListBoxesSpec(providerName, pc, cloud, now).value;
      var annotated := Annotated(Collected(providerName, pc, cloud, now).value, now);
      && SortedDesc(out)
      && multiset(out) == multiset(annotated)
      && (forall v :: WithKey(out, v) == WithKey(annotated, v))
      && (forall x :: x in out ==> exists i :: 0 <= i < |annotated| && x == annotated[i])
  {
    var annotated := Annotated(Collected(providerName, pc, cloud, now).value, now);
    SortDescSpec(annotated);
    var out := SortDesc(annotated);
    forall x | x in out ensures exists i :: 0 <= i < |annotated| && x == annotated[i] {
      assert x in multiset(annotated);
    }
  }

  method ListBoxes(providerName: Option<string>, pc: Dict, cloud: Cloud, now: int) returns (r: Result<seq<Instance>>)
    ensures r == ListBoxesSpec(providerName, pc, cloud, now)
  {
    var instances: seq<Instance>;
    if providerName.None? {
      instances := CollectInstances(pc, cloud, now);
    } else {
      var named := ListNamed(providerName.value, pc, cloud, now);
      if named.Err? {
        return Err(named.error);
      }
      instances := named.value;
    }
    var annotated := AnnotateAll(instances, now);
    r := Ok(SortDesc(annotated));
  }

  /** The loop over the configured providers; a failing one is skipped. */
  method CollectInstances(pc: Dict, cloud: Cloud, now: int) returns (instances: seq<Instance>)
    ensures instances == CollectAll(pc, cloud, now)
  {
    instances := [];
    var i := 0;
    while i < |pc|
      invariant 0 <= i <= |pc|
      invariant instances == CollectAll(pc[..i], cloud, now)
    {
      assert pc[..i + 1][..i] == pc[..i];
      var name, cfg := pc[i].0, pc[i].1;
      var provider := GetProvider(name, cfg);
      if provider.Ok? {
        var listed := provider.value.ListInstances(cloud, now);
        if listed.Ok? {
          instances := instances + listed.value;
        }
      }
      i := i + 1;
    }
    assert pc[..|pc|] == pc;
  }

  method ListNamed(name: string, pc: Dict, cloud: Cloud, now: int) returns (r: Result<seq<Instance>>)
    ensures r == CollectNamed(name, pc, cloud, now)
  {
    var cfg := Get(pc, name);
    if cfg.None? || !Truthy(cfg.value) {
      return Err(NotConfigured(name));
    }
    var provider := GetProvider(name, cfg.value);
    if provider.Err? {
      return Err(provider.error);
    }
    r := provider.value.ListInstances(cloud, now);
  }

  /** The annotation loop: each record in turn gains its lifetime left. */
  method AnnotateAll(s: seq<Instance>, now: int) returns (instances: seq<Instance>)
    ensures instances == Annotated(s, now)
  {
    instances := s;
    var i := 0;
    while i < |instances|
      invariant 0 <= i <= |instances| == |s|
      invariant forall j :: 0 <= j < i ==> instances[j] == Annotate(s[j], now)
      invariant forall j :: i <= j < |s| ==> instances[j] == s[j]
    {
      instances := instances[i := Annotate(instances[i], now)];
      i := i + 1;
    }
  }
}
