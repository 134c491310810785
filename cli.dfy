// The command-line layer: the configured-provider guard, the time-left column
// of the list command, and the terminate command's three modes ('expired',
// 'all' and explicit identifiers) with per-identifier failure isolation.

module Cli {
  import opened Common
  import opened Base
  import opened Providers
  import opened ListCommand
  import opened TerminateCommand

  // ---------------------------------------------------------------------
  // get_configured_providers and the guard in front of each command

  /** The keys of the provider configuration, none when loading it fails. */
  function ConfiguredProviders(loaded: Result<Dict>): (ks: seq<string>)
    ensures forall k :: k in ks <==> loaded.Ok? && HasKey(loaded.value, k)
  {
    if loaded.Err? then []
    else
      var ks := Keys(loaded.value);
      assert forall k :: k in ks <==> HasKey(loaded.value, k) by {
        forall k | HasKey(loaded.value, k) ensures k in ks {
          var i :| 0 <= i < |loaded.value| && loaded.value[i].0 == k;
          assert ks[i] == k;
        }
      }
      ks
  }

  /** `provider and provider not in get_configured_providers()`. */
  predicate Rejected(provider: Option<string>, configured: seq<string>) {
    provider.Some? && provider.value != "" && provider.value !in configured
  }

  // ---------------------------------------------------------------------
  // The "Time Left" column

  function FormatTimeLeft(lifetimeLeft: Option<real>): string {
    var x := if lifetimeLeft.Some? then lifetimeLeft.value else 0.0;
    if x < 1.0 then "expired" else IntToString(x.Floor) + "m"
  }

  /** Under a minute left reads "expired"; otherwise the whole minutes left,
      truncated, followed by "m". */
  lemma TimeLeftReadsBack(x: real)
    ensures FormatTimeLeft(Some(x)) == "expired" <==> x < 1.0
    ensures x >= 1.0 ==>
      var s := FormatTimeLeft(Some(x));
      && |s| >= 2 && s[|s| - 1] == 'm'
      && exists n: int :: ParseInt(s[..|s| - 1]) == Some(n) && 1 <= n && n as real <= x < n as real + 1.0
    ensures FormatTimeLeft(None) == "expired"
  {
    if x >= 1.0 {
      var n := x.Floor;
      var digits := IntToString(n);
      var s := digits + "m";
      assert n >= 1;
      assert s[..|s| - 1] == digits;
      ParseIntOfIntToString(n);
      assert "expired"[|"expired"| - 1] == 'd';
    }
  }

  /** Thirty seconds before the end of its lifetime a record already shows
      "expired", though the adapter does not yet count it as expired. */
  lemma ShownExpiredBeforeExpiry(creationTime: int, lifetimeMinutes: int)
    ensures var now := creationTime + lifetimeMinutes * 60 - 30;
      && FormatTimeLeft(Some(LifetimeLeft(creationTime, lifetimeMinutes, now))) == "expired"
      && !IsExpired(creationTime, lifetimeMinutes, now)
  {
    var now := creationTime + lifetimeMinutes * 60 - 30;
    var left := lifetimeMinutes as real - (now - creationTime) as real / 60.0;
    assert (now - creationTime) as real == lifetimeMinutes as real * 60.0 - 30.0;
    assert left == 0.5;
  }

  // ---------------------------------------------------------------------
  // The terminate command

  /** An identifier and the provider name handed to terminate_box. */
  type Target = (string, Option<string>)

  /** The tally the command prints: how many terminations succeeded, and
      each failed identifier with its error message. */
  datatype Report = Report(successCount: nat, failures: seq<(string, string)>)

  /** The result of one terminate_box call. It loads the provider
      configuration again, so a configuration that does not load fails the
      call with that error. */
  function Attempt(target: Target, loaded: Result<Dict>, cloud: Cloud, now: int): (r: Result<string>)
    ensures loaded.Err? ==> r == Err(loaded.error)
    ensures loaded.Ok? ==> r == TerminateBoxSpec(target.0, target.1, loaded.value, cloud, now)
  {
    if loaded.Err? then Err(loaded.error) else TerminateBoxSpec(target.0, target.1, loaded.value, cloud, now)
  }

  /** The result of each terminate_box call, the k-th made while the vendors
      answer as cloudAt(k). */
  function Attempts(targets: seq<Target>, loaded: Result<Dict>, cloudAt: nat -> Cloud, now: int): (rs: seq<Result<string>>)
    ensures |rs| == |targets|
    ensures forall k :: 0 <= k < |targets| ==> rs[k] == Attempt(targets[k], loaded, cloudAt(k), now)
  {
    seq(|targets|, k requires 0 <= k < |targets| => Attempt(targets[k], loaded, cloudAt(k), now))
  }

  /** The tally of the calls' results, in the order they were made. */
  function Tally(targets: seq<Target>, results: seq<Result<string>>): Report
    requires |targets| == |results|
    decreases |targets|
  {
    if targets == [] then Report(0, [])
    else
      var n := |targets| - 1;
      var prev := Tally(targets[..n], results[..n]);
      match results[n]
      case Ok(_) => prev.(successCount := prev.successCount + 1)
      case Err(e) => prev.(failures := prev.failures + [(targets[n].0, e.message)])
  }

  /** The positions whose call failed, in order. */
  function FailedPositions(results: seq<Result<string>>): seq<nat>
    decreases |results|
  {
    if results == [] then []
    else
      var n := |results| - 1;
      FailedPositions(results[..n]) + (if results[n].Err? then [n] else [])
  }

  /** FailedPositions lists, in increasing order, exactly the positions whose
      call failed. */
  lemma {:induction false} FailedPositionsSpec(results: seq<Result<string>>)
    ensures var ps := FailedPositions(results);
      && (forall i, j :: 0 <= i < j < |ps| ==> ps[i] < ps[j])
      && (forall i :: 0 <= i < |ps| ==> ps[i] < |results|)
      && (forall k :: 0 <= k < |results| ==> (k in ps <==> results[k].Err?))
    decreases |results|
  {
    if results != [] {
      var n := |results| - 1;
      var front := results[..n];
      FailedPositionsSpec(front);
      assert forall k :: 0 <= k < n ==> front[k] == results[k];
    }
  }

  /** When every call fails, every position is a failed one. */
  lemma {:induction false} AllPositionsFailed(results: seq<Result<string>>)
    requires forall k :: 0 <= k < |results| ==> results[k].Err?
    ensures |FailedPositions(results)| == |results|
    decreases |results|
  {
    if results != [] {
      var n := |results| - 1;
      assert forall k :: 0 <= k < n ==> results[..n][k] == results[k];
      AllPositionsFailed(results[..n]);
    }
  }

  /** ... and the i-th failed position is i. */
  lemma {:induction false} AllFailedPositions(results: seq<Result<string>>)
    requires forall k :: 0 <= k < |results| ==> results[k].Err?
    ensures forall i :: 0 <= i < |FailedPositions(results)| ==> FailedPositions(results)[i] == i
    decreases |results|
  {
    if results != [] {
      var n := |results| - 1;
      assert forall k :: 0 <= k < n ==> results[..n][k] == results[k];
      AllFailedPositions(results[..n]);
      AllPositionsFailed(results[..n]);
    }
  }

  /** Every target is attempted whatever happened before it: the successes
      and the failures add up to the number of targets, and the failures are
      those of the failed positions, in input order, with their messages. */
  lemma {:induction false} TallyAccounts(targets: seq<Target>, results: seq<Result<string>>)
    requires |targets| == |results|
    ensures var r := Tally(targets, results);
      var ps := FailedPositions(results);
      && r.successCount + |r.failures| == |targets|
      && |r.failures| == |ps|
      && (forall i :: 0 <= i < |ps| ==>
            && ps[i] < |results| && results[ps[i]].Err?
            && r.failures[i] == (targets[ps[i]].0, results[ps[i]].error.message))
    decreases |targets|
  {
    FailedPositionsSpec(results);
    if targets != [] {
      var n := |targets| - 1;
      var ts, rs := targets[..n], results[..n];
      TallyAccounts(ts, rs);
      FailedPositionsSpec(rs);
      var ps := FailedPositions(rs);
      assert forall i :: 0 <= i < |ps| ==> ts[ps[i]] == targets[ps[i]] && rs[ps[i]] == results[ps[i]];
    }
  }

  /** The loop shared by the three modes. */
  method RunTargets(targets: seq<Target>, loaded: Result<Dict>, cloudAt: nat -> Cloud, now: int) returns (report: Report)
    ensures report == Tally(targets, Attempts(targets, loaded, cloudAt, now))
  {
    ghost var results := Attempts(targets, loaded, cloudAt, now);
    var successCount: nat := 0;
    var failed: seq<(string, string)> := [];
    var i := 0;
    while i < |targets|
      invariant 0 <= i <= |targets|
      invariant Report(successCount, failed) == Tally(targets[..i], results[..i])
    {
      var r: Result<string>;
      if loaded.Err? {
        r := Err(loaded.error);
      } else {
        r := TerminateBox(targets[i].0, targets[i].1, loaded.value, cloudAt(i), now);
      }
      assert r == results[i];
      assert targets[..i + 1][..i] == targets[..i] && results[..i + 1][..i] == results[..i];
      if r.Ok? {
        successCount := successCount + 1;
      } else {
        failed := failed + [(targets[i].0, r.error.message)];
      }
      i := i + 1;
    }
    assert targets[..i] == targets && results[..i] == results;
    report := Report(successCount, failed);
  }

  /** How the command ends. */
  datatype Outcome =
    | NotSetUp                          // no configuration at all
    | ProviderNotConfigured(name: string)
    | NoActiveInstances
    | NoExpiredInstances
    | Cancelled
    | NoIdentifiers
    | TooMany
    | Failed(message: string)           // an error outside the per-target loop
    | Done(targets: seq<Target>, report: Report)

  const MAX_IDENTIFIERS := 5

  /** Each listed record is terminated through its own provider field. */
  function BulkTargets(rs: seq<Instance>): (ts: seq<Target>)
    ensures |ts| == |rs|
    ensures forall i :: 0 <= i < |rs| ==> ts[i] == (rs[i].instanceId, rs[i].provider)
  {
    seq(|rs|, i requires 0 <= i < |rs| => (rs[i].instanceId, rs[i].provider))
  }

  function ExplicitTargets(ids: seq<string>, provider: Option<string>): (ts: seq<Target>)
    ensures |ts| == |ids|
    ensures forall i :: 0 <= i < |ids| ==> ts[i] == (ids[i], provider)
  {
    seq(|ids|, i requires 0 <= i < |ids| => (ids[i], provider))
  }

  predicate BulkMode(ids: seq<string>) {
    |ids| == 1 && (ids[0] == "expired" || ids[0] == "all")
  }

  function Run(targets: seq<Target>, loaded: Result<Dict>, cloudAt: nat -> Cloud, now: int): Outcome {
    Done(targets, Tally(targets, Attempts(targets, loaded, cloudAt, now)))
  }

  /** Where the command stops, or the targets it goes on to terminate. */
  datatype Plan = Stop(outcome: Outcome) | Go(targets: seq<Target>)

  /** The decisions before the termination loop, given the configured
      provider names and the listing the bulk modes read. */
  function PlanOf(ids: seq<string>, provider: Option<string>, yes: bool, confirm: bool,
                  configExists: bool, configured: seq<string>, listing: Result<seq<Instance>>): Plan
  {
    if !configExists then Stop(NotSetUp)
    else if Rejected(provider, configured) then Stop(ProviderNotConfigured(provider.value))
    else if BulkMode(ids) then
      match listing
      case Err(e) => Stop(Failed(e.message))
      case Ok(listed) =>
        if listed == [] then Stop(NoActiveInstances)
        else
          var chosen := if ids[0] == "expired" then ExpiredOnly(listed) else listed;
          if chosen == [] then Stop(NoExpiredInstances)
          else if !yes && !confirm then Stop(Cancelled)
          else Go(BulkTargets(chosen))
    else if |ids| == 0 then Stop(NoIdentifiers)
    else if |ids| > MAX_IDENTIFIERS then Stop(TooMany)
    else if |ids| > 1 && !yes && !confirm then Stop(Cancelled)
    else Go(ExplicitTargets(ids, provider))
  }

  /** What list_boxes gives the bulk modes: it loads the provider
      configuration again, so a configuration that does not load raises that
      error there. */
  function BulkListing(provider: Option<string>, loaded: Result<Dict>, listCloud: Cloud, now: int): Result<seq<Instance>> {
    if loaded.Err? then Err(loaded.error) else ListBoxesSpec(provider, loaded.value, listCloud, now)
  }

  /** The terminate command. `configExists` is whether a configuration is
      present, `loaded` is the provider configuration as loaded (an error
      when it does not read as a dict), `confirm` is the answer the user
      would give to the prompt, and listing sees the vendors as
      `listCloud`. */
  function TerminateSpec(ids: seq<string>, provider: Option<string>, yes: bool, confirm: bool,
                         configExists: bool, loaded: Result<Dict>,
                         listCloud: Cloud, cloudAt: nat -> Cloud, now: int): Outcome
  {
    var listing := if BulkMode(ids) then BulkListing(provider, loaded, listCloud, now) else Ok([]);
    match PlanOf(ids, provider, yes, confirm, configExists, ConfiguredProviders(loaded), listing)
    case Stop(o) => o
    case Go(targets) => Run(targets, loaded, cloudAt, now)
  }

  /** A provider configuration that does not load is reported, not read as
      empty: the bulk modes stop with its message, and every explicit
      identifier the command goes on to terminate fails with it. */
  lemma {:induction false} LoadErrorReported(ids: seq<string>, provider: Option<string>, yes: bool, confirm: bool,
                                             loaded: Result<Dict>, listCloud: Cloud, cloudAt: nat -> Cloud, now: int)
    requires loaded.Err? && !Rejected(provider, [])
    ensures var out := TerminateSpec(ids, provider, yes, confirm, true, loaded, listCloud, cloudAt, now);
      && (BulkMode(ids) ==> out == Failed(loaded.error.message))
      && (out.Done? ==>
            && out.report.successCount == 0
            && |out.report.failures| == |ids|
            && forall i :: 0 <= i < |ids| ==> out.report.failures[i] == (ids[i], loaded.error.message))
  {
    var out := TerminateSpec(ids, provider, yes, confirm, true, loaded, listCloud, cloudAt, now);
    if out.Done? {
      var results := Attempts(out.targets, loaded, cloudAt, now);
      TallyAccounts(out.targets, results);
      FailedPositionsSpec(results);
      var ps := FailedPositions(results);
      assert |ps| == |results| by {
        AllPositionsFailed(results);
      }
      AllFailedPositions(results);
    }
  }

  /** A plan that goes on to the loop has passed the guard, the confirmation
      unless a single identifier was given, the identifier bounds, and the
      choice of targets of its mode, and it has at least one target. */
  lemma PlanReached(ids: seq<string>, provider: Option<string>, yes: bool, confirm: bool,
                    configExists: bool, configured: seq<string>, listing: Result<seq<Instance>>)
    requires PlanOf(ids, provider, yes, confirm, configExists, configured, listing).Go?
    ensures var ts := PlanOf(ids, provider, yes, confirm, configExists, configured, listing).targets;
      && configExists && !Rejected(provider, configured)
      && (yes || confirm || (|ids| == 1 && !BulkMode(ids)))
      && |ts| > 0
      && (!BulkMode(ids) ==> 1 <= |ids| <= MAX_IDENTIFIERS && ts == ExplicitTargets(ids, provider))
      && (BulkMode(ids) ==>
            listing.Ok? && ts == BulkTargets(if ids[0] == "expired" then ExpiredOnly(listing.value) else listing.value))
  {
  }

  /** What a run that reaches the termination loop has passed through, and
      its report accounts for every target. */
  lemma TerminationReached(ids: seq<string>, provider: Option<string>, yes: bool, confirm: bool,
                           configExists: bool, loaded: Result<Dict>,
                           listCloud: Cloud, cloudAt: nat -> Cloud, now: int)
    requires TerminateSpec(ids, provider, yes, confirm, configExists, loaded, listCloud, cloudAt, now).Done?
    ensures var out := TerminateSpec(ids, provider, yes, confirm, configExists, loaded, listCloud, cloudAt, now);
      && configExists && !Rejected(provider, ConfiguredProviders(loaded))
      && (yes || confirm || (|ids| == 1 && !BulkMode(ids)))
      && |out.targets| > 0
      && (!BulkMode(ids) ==> 1 <= |ids| <= MAX_IDENTIFIERS && out.targets == ExplicitTargets(ids, provider))
      && (BulkMode(ids) ==>
            && loaded.Ok? && ListBoxesSpec(provider, loaded.value, listCloud, now).Ok?
            && var listed := ListBoxesSpec(provider, loaded.value, listCloud, now).value;
               out.targets == BulkTargets(if ids[0] == "expired" then ExpiredOnly(listed) else listed))
      && out.report.successCount + |out.report.failures| == |out.targets|
  {
    var listing := if BulkMode(ids) then BulkListing(provider, loaded, listCloud, now) else Ok([]);
    var plan := PlanOf(ids, provider, yes, confirm, configExists, ConfiguredProviders(loaded), listing);
    assert plan.Go?;
    PlanReached(ids, provider, yes, confirm, configExists, ConfiguredProviders(loaded), listing);
    TallyAccounts(plan.targets, Attempts(plan.targets, loaded, cloudAt, now));
  }

  /** The targets of the 'expired' mode: the listed expired records, each
      named with its own provider, and all of them. */
  lemma ExpiredTargets(listed: seq<Instance>)
    ensures var ts := BulkTargets(ExpiredOnly(listed));
      && (forall t :: t in ts ==> exists x :: x in listed && x.isExpired == Some(true) && t == (x.instanceId, x.provider))
      && (forall x :: x in listed && x.isExpired == Some(true) ==> (x.instanceId, x.provider) in ts)
  {
    var chosen := ExpiredOnly(listed);
    var ts := BulkTargets(chosen);
    forall t | t in ts ensures exists x :: x in listed && x.isExpired == Some(true) && t == (x.instanceId, x.provider) {
      var i :| 0 <= i < |ts| && ts[i] == t;
      assert chosen[i] in chosen;
    }
    forall x | x in listed && x.isExpired == Some(true) ensures (x.instanceId, x.provider) in ts {
      var i :| 0 <= i < |chosen| && chosen[i] == x;
      assert ts[i] == (x.instanceId, x.provider);
    }
  }

  method Terminate(ids: seq<string>, provider: Option<string>, yes: bool, confirm: bool,
                   configExists: bool, loaded: Result<Dict>,
                   listCloud: Cloud, cloudAt: nat -> Cloud, now: int) returns (outcome: Outcome)
    ensures outcome == TerminateSpec(ids, provider, yes, confirm, configExists, loaded, listCloud, cloudAt, now)
  {
    var plan := PlanTerminate(ids, provider, yes, confirm, configExists, loaded, listCloud, now);
    match plan {
      case Stop(o) =>
        outcome := o;
      case Go(targets) =>
        var report := RunTargets(targets, loaded, cloudAt, now);
        outcome := Done(targets, report);
    }
  }

  /** The branches of the command up to the termination loop. */
  method PlanTerminate(ids: seq<string>, provider: Option<string>, yes: bool, confirm: bool,
                       configExists: bool, loaded: Result<Dict>, listCloud: Cloud, now: int) returns (plan: Plan)
    ensures plan == PlanOf(ids, provider, yes, confirm, configExists, ConfiguredProviders(loaded),
                           if BulkMode(ids) then BulkListing(provider, loaded, listCloud, now) else Ok([]))
  {
    if !configExists {
      return Stop(NotSetUp);
    }
    if provider.Some? && provider.value != "" && provider.value !in ConfiguredProviders(loaded) {
      return Stop(ProviderNotConfigured(provider.value));
    }
    if |ids| == 1 && (ids[0] == "expired" || ids[0] == "all") {
      if loaded.Err? {
        return Stop(Failed(loaded.error.message));
      }
      var listing := ListBoxes(provider, loaded.value, listCloud, now);
      if listing.Err? {
        return Stop(Failed(listing.error.message));
      }
      var instances := listing.value;
      if instances == [] {
        return Stop(NoActiveInstances);
      }
      if ids[0] == "expired" {
        instances := ExpiredOnly(instances);
        if instances == [] {
          return Stop(NoExpiredInstances);
        }
      }
      if !yes && !confirm {
        return Stop(Cancelled);
      }
      return Go(BulkTargets(instances));
    }
    if |ids| == 0 {
      return Stop(NoIdentifiers);
    }
    if |ids| > MAX_IDENTIFIERS {
      return Stop(TooMany);
    }
    if |ids| > 1 && !yes && !confirm {
      return Stop(Cancelled);
    }
    plan := Go(ExplicitTargets(ids, provider));
  }
}
