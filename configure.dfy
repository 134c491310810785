// The configure command: the recursive dict merge, the masking of secrets
// before the provider configuration is shown, the warnings of the final
// validation, the prompt sets of the general and provider configurations and
// the overall flow of run_configure.

module Configure {
  import opened Common
  import opened Providers
  import opened ConfigLoader

  // ---------------------------------------------------------------------
  // update_nested_dict

  /** The merge of `updates` into `original`, the entries of `updates` taken
      from position `i` on, front to back. */
  function MergeFrom(original: Dict, updates: Dict, i: nat): Dict
    requires i <= |updates|
    decreases JObj(updates), |updates| - i
  {
    if i == |updates| then original
    else MergeFrom(MergeEntry(original, updates, i), updates, i + 1)
  }

  /** One entry: two dicts merge recursively, a None value changes nothing,
      any other value is stored under its key. */
  function MergeEntry(original: Dict, updates: Dict, i: nat): Dict
    requires i < |updates|
    decreases JObj(updates), 0
  {
    var (key, value) := updates[i];
    var current := Get(original, key);
    if current.Some? && current.value.JObj? && value.JObj? then
      assert updates[i] in updates;
      Assign(original, key, JObj(MergeFrom(current.value.fields, value.fields, 0)))
    else if value != JNull then Assign(original, key, value)
    else original
  }

  function Merge(original: Dict, updates: Dict): Dict {
    MergeFrom(original, updates, 0)
  }

  /** The value a key has after the merge, given its value before and its
      value in the updates. */
  function MergedValue(before: Option<Json>, update: Option<Json>): Option<Json> {
    match update
    case None => before
    case Some(v) =>
      if before.Some? && before.value.JObj? && v.JObj? then Some(JObj(Merge(before.value.fields, v.fields)))
      else if v == JNull then before
      else Some(v)
  }

  lemma MergeEntryLookup(original: Dict, updates: Dict, i: nat)
    requires i < |updates|
    ensures forall k ::
      Get(MergeEntry(original, updates, i), k)
      == if k == updates[i].0 then MergedValue(Get(original, k), Some(updates[i].1)) else Get(original, k)
  {
  }

  lemma {:induction false} MergeFromLookup(original: Dict, updates: Dict, i: nat)
    requires UniqueKeys(updates)
    requires i <= |updates|
    ensures forall k :: Get(MergeFrom(original, updates, i), k) == MergedValue(Get(original, k), Get(updates[i..], k))
    decreases |updates| - i
  {
    if i < |updates| {
      var next := MergeEntry(original, updates, i);
      var rest := updates[i + 1..];
      var key := updates[i].0;
      assert updates[i..] == [updates[i]] + rest;
      MergeFromLookup(next, updates, i + 1);
      MergeEntryLookup(original, updates, i);
      forall k ensures Get(MergeFrom(original, updates, i), k) == MergedValue(Get(original, k), Get(updates[i..], k)) {
        assert Get(MergeFrom(original, updates, i), k) == MergedValue(Get(next, k), Get(rest, k));
        assert Get(updates[i..], k) == if k == key then Some(updates[i].1) else Get(rest, k) by {
          GetCons(updates[i], rest);
        }
        if k == key {
          assert !HasKey(rest, key);
        }
      }
    }
  }

  /** update_nested_dict, key by key: a key the updates do not mention and a
      key whose update is None keep their value, two dicts are merged
      recursively, and every other value is stored; nothing else gains a
      key. */
  lemma MergeLookup(original: Dict, updates: Dict)
    requires UniqueKeys(updates)
    ensures forall k :: !HasKey(updates, k) ==> Get(Merge(original, updates), k) == Get(original, k)
    ensures forall k :: Get(updates, k) == Some(JNull) ==> Get(Merge(original, updates), k) == Get(original, k)
    ensures forall k, before, update ::
      Get(original, k) == Some(JObj(before)) && Get(updates, k) == Some(JObj(update))
      ==> Get(Merge(original, updates), k) == Some(JObj(Merge(before, update)))
    ensures forall k, v ::
      Get(updates, k) == Some(v) && v != JNull && !(v.JObj? && Get(original, k).Some? && Get(original, k).value.JObj?)
      ==> Get(Merge(original, updates), k) == Some(v)
    ensures forall k ::
      HasKey(Merge(original, updates), k) <==> HasKey(original, k) || (HasKey(updates, k) && Get(updates, k) != Some(JNull))
  {
    MergeFromLookup(original, updates, 0);
    assert updates[0..] == updates;
    forall k ensures HasKey(Merge(original, updates), k) <==> HasKey(original, k) || (HasKey(updates, k) && Get(updates, k) != Some(JNull)) {
      assert Get(Merge(original, updates), k) == MergedValue(Get(original, k), Get(updates, k));
    }
  }

  /** An empty update changes nothing. */
  lemma MergeNothing(original: Dict)
    ensures Merge(original, []) == original
  {
  }

  /** The in-place merge: the loop over the updates, recursing into nested
      dicts. */
  method UpdateNestedDict(original: Dict, updates: Dict) returns (r: Dict)
    ensures r == Merge(original, updates)
    decreases JObj(updates)
  {
    r := original;
    for i := 0 to |updates|
      invariant MergeFrom(r, updates, i) == Merge(original, updates)
    {
      var (key, value) := updates[i];
      var current := Get(r, key);
      if current.Some? && current.value.JObj? && value.JObj? {
        assert updates[i] in updates;
        var inner := UpdateNestedDict(current.value.fields, value.fields);
        r := Assign(r, key, JObj(inner));
      } else if value != JNull {
        r := Assign(r, key, value);
      }
    }
  }

  // ---------------------------------------------------------------------
  // Masking in print_configs

  /** The keys whose values are never shown; they are also the keys whose
      prompts default to the empty string. */
  const SECRET_KEYS: seq<string> := ["api_key", "access_key", "secret_key", "default_root_pass"]
  const MASK := "********"

  /** Printing stops at the first provider value the loop cannot walk. */
  const UNREADABLE := Error(Failure, "Error reading configuration")

  function MaskEntry(e: (string, Json)): (string, Json) {
    if e.0 in SECRET_KEYS then (e.0, JStr(MASK)) else e
  }

  function MaskFields(fields: Dict): (r: Dict)
    ensures |r| == |fields|
    ensures forall i :: 0 <= i < |fields| ==> r[i] == MaskEntry(fields[i])
  {
    if fields == [] then [] else [MaskEntry(fields[0])] + MaskFields(fields[1..])
  }

  /** A masked provider configuration has the same keys in the same order; a
      secret key reads as the mask and every other key as before. */
  lemma {:induction false} MaskFieldsLookup(fields: Dict)
    ensures Keys(MaskFields(fields)) == Keys(fields)
    ensures forall k :: Get(MaskFields(fields), k) == if k in SECRET_KEYS && HasKey(fields, k) then Some(JStr(MASK)) else Get(fields, k)
  {
    if fields != [] {
      var rest := fields[1..];
      MaskFieldsLookup(rest);
      assert fields == [fields[0]] + rest;
      assert MaskFields(fields) == [MaskEntry(fields[0])] + MaskFields(rest);
      GetCons(fields[0], rest);
      GetCons(MaskEntry(fields[0]), MaskFields(rest));
      HasKeyCons(fields[0], rest);
      KeysCons(fields[0], rest);
      KeysCons(MaskEntry(fields[0]), MaskFields(rest));
    }
  }

  /** `for key in provider`: a dict has its secrets masked, a string is
      walked character by character and matches nothing, a list fails only
      when one of its items names a secret key (it cannot be indexed by a
      string), and a number, a boolean or null cannot be walked. */
  function MaskProvider(provider: Json): Result<Json> {
    match provider
    case JObj(fields) => Ok(JObj(MaskFields(fields)))
    case JStr(_) => Ok(provider)
    case JList(items) => if exists i :: 0 <= i < |items| && items[i].JStr? && items[i].s in SECRET_KEYS then Err(UNREADABLE) else Ok(provider)
    case _ => Err(UNREADABLE)
  }

  /** The masked copy of the provider configuration document. */
  function MaskedSpec(doc: Json): Result<Dict> {
    match doc
    case JObj(providers) => MaskedProviders(providers)
    case _ => Err(UNREADABLE)
  }

  function MaskedProviders(providers: Dict): Result<Dict> {
    if providers == [] then Ok([])
    else
      match MaskProvider(providers[|providers| - 1].1)
      case Err(e) => Err(e)
      case Ok(v) =>
        match MaskedProviders(providers[..|providers| - 1])
        case Err(e) => Err(e)
        case Ok(front) => Ok(front + [(providers[|providers| - 1].0, v)])
  }

  /** Masking succeeds exactly when every provider value can be walked; it
      then keeps every provider name and position, masks each provider dict
      and leaves every other provider value as it was. */
  lemma {:induction false} MaskedProvidersSpec(providers: Dict)
    ensures MaskedProviders(providers).Ok? <==> forall i :: 0 <= i < |providers| ==> MaskProvider(providers[i].1).Ok?
    ensures MaskedProviders(providers).Ok? ==>
      var r := MaskedProviders(providers).value;
      && |r| == |providers|
      && forall i :: 0 <= i < |providers| ==> r[i] == (providers[i].0, MaskProvider(providers[i].1).value)
  {
    if providers != [] {
      var n := |providers| - 1;
      var front := providers[..n];
      MaskedProvidersSpec(front);
      forall i | 0 <= i < n ensures front[i] == providers[i] {}
    }
  }

  /** The loop of print_configs over a copy of the document. The copy is a
      value, so the loaded document itself cannot change. */
  method MaskSecrets(doc: Json) returns (r: Result<Dict>)
    ensures r == MaskedSpec(doc)
  {
    if !doc.JObj? {
      return Err(UNREADABLE);
    }
    var masked := doc.fields;
    ghost var original := doc.fields;
    var i := 0;
    while i < |masked|
      invariant 0 <= i <= |masked| == |original|
      invariant MaskedProviders(original[..i]) == Ok(masked[..i])
      invariant masked[i..] == original[i..]
    {
      assert masked[i] == original[i];
      var one := MaskOne(masked[i].1);
      if one.Err? {
        MaskedFailsAt(original, i);
        return Err(UNREADABLE);
      }
      masked := masked[i := (masked[i].0, one.value)];
      MaskedStep(original, i, masked[..i], one.value);
      assert masked[..i + 1] == masked[..i] + [masked[i]];
      i := i + 1;
    }
    assert original[..|original|] == original;
    assert masked[..|masked|] == masked;
    r := Ok(masked);
  }

  /** One provider value: a dict loses its secrets, a list is searched for
      an item naming a secret key. */
  method MaskOne(provider: Json) returns (r: Result<Json>)
    ensures r == MaskProvider(provider)
  {
    match provider {
      case JObj(fields) =>
        var m := MaskProviderFields(fields);
        r := Ok(JObj(m));
      case JStr(_) =>
        r := Ok(provider);
      case JList(items) =>
        for j := 0 to |items|
          invariant forall q :: 0 <= q < j ==> !(items[q].JStr? && items[q].s in SECRET_KEYS)
        {
          if items[j].JStr? && items[j].s in SECRET_KEYS {
            return Err(UNREADABLE);
          }
        }
        r := Ok(provider);
      case _ =>
        r := Err(UNREADABLE);
    }
  }

  lemma MaskedStep(providers: Dict, i: nat, front: Dict, v: Json)
    requires i < |providers|
    requires MaskedProviders(providers[..i]) == Ok(front)
    requires MaskProvider(providers[i].1) == Ok(v)
    ensures MaskedProviders(providers[..i + 1]) == Ok(front + [(providers[i].0, v)])
  {
    assert providers[..i + 1][..i] == providers[..i];
  }

  lemma MaskedFailsAt(providers: Dict, i: nat)
    requires i < |providers|
    requires MaskProvider(providers[i].1).Err?
    ensures MaskedProviders(providers) == Err(UNREADABLE)
  {
    MaskedProvidersSpec(providers);
    MaskedErrIsUnreadable(providers);
  }

  lemma {:induction false} MaskedErrIsUnreadable(providers: Dict)
    ensures MaskedProviders(providers).Err? ==> MaskedProviders(providers) == Err(UNREADABLE)
  {
    if providers != [] {
      MaskedErrIsUnreadable(providers[..|providers| - 1]);
    }
  }

  /** The inner loop: each secret key of one provider dict is masked. */
  method MaskProviderFields(fields: Dict) returns (m: Dict)
    ensures m == MaskFields(fields)
  {
    m := fields;
    for j := 0 to |m|
      invariant |m| == |fields|
      invariant forall q :: 0 <= q < j ==> m[q] == MaskEntry(fields[q])
      invariant forall q :: j <= q < |m| ==> m[q] == fields[q]
    {
      if m[j].0 in SECRET_KEYS {
        m := m[j := (m[j].0, JStr(MASK))];
      }
    }
  }

  // ---------------------------------------------------------------------
  // validate_configs

  datatype Warning =
    | SshKeyNotFound(path: string)
    | DefaultNotConfigured(name: string)
    | MissingAwsCredentials(name: string)
    | MissingApiKey(name: string)
    | CouldNotValidate

  /** The warnings about the default provider. A string names a provider; a
      truthy number or boolean is never a key of the configuration; a list or
      a dict cannot be looked up, and neither can a configuration entry that
      is not a dict: both end validation. */
  function ProviderWarnings(general: Dict, pc: Dict): (ws: seq<Warning>)
    ensures |ws| <= 1
  {
    match Get(general, "default_provider")
    case None => []
    case Some(dp) =>
      if !Truthy(dp) then []
      else
        match dp
        case JStr(name) => if !HasKey(pc, name) then [DefaultNotConfigured(name)] else EntryWarnings(name, Get(pc, name).value)
        case JList(_) => [CouldNotValidate]
        case JObj(_) => [CouldNotValidate]
        case _ => [DefaultNotConfigured(AsText(dp))]
  }

  /** The credential rule for the configured entry of the default provider. */
  function EntryWarnings(name: string, entry: Json): seq<Warning> {
    match entry
    case JObj(fields) =>
      if name == "aws" then
        if !TruthyAt(fields, "access_key") || !TruthyAt(fields, "secret_key") then [MissingAwsCredentials(name)] else []
      else if !TruthyAt(fields, "api_key") then [MissingApiKey(name)]
      else []
    case _ => [CouldNotValidate]
  }

  /** The whole validation: first the key file (an absent path reads as ""),
      then the default provider. `keyExists` answers whether a path names an
      existing file. */
  function Validate(general: Dict, pc: Dict, keyExists: string -> bool): seq<Warning> {
    match GetOr(general, "ssh_key_path", JStr(""))
    case JStr(path) => (if keyExists(path) then [] else [SshKeyNotFound(path)]) + ProviderWarnings(general, pc)
    case _ => [CouldNotValidate]
  }

  /** The key-file rule: for a string path the first warning is the missing
      key file exactly when the file does not exist, and it is the only
      warning about a key file; any other path value ends validation with
      the single could-not-validate warning. */
  lemma ValidateKeyFile(general: Dict, pc: Dict, keyExists: string -> bool)
    ensures var ws := Validate(general, pc, keyExists);
      var path := GetOr(general, "ssh_key_path", JStr(""));
      && (path.JStr? ==>
            && (SshKeyNotFound(path.s) in ws <==> !keyExists(path.s))
            && (!keyExists(path.s) ==> ws[0] == SshKeyNotFound(path.s))
            && (forall i :: 0 <= i < |ws| && ws[i].SshKeyNotFound? ==> i == 0 && ws[i].path == path.s))
      && (!path.JStr? ==> ws == [CouldNotValidate])
  {
    var path := GetOr(general, "ssh_key_path", JStr(""));
    if path.JStr? {
      var head := if keyExists(path.s) then [] else [SshKeyNotFound(path.s)];
      var pw := ProviderWarnings(general, pc);
      assert forall w :: w in pw ==> !w.SshKeyNotFound?;
      assert Validate(general, pc, keyExists) == head + pw;
    }
  }

  /** The provider rules for a string default: unconfigured exactly when it
      is not a key; for aws a warning exactly when a credential is falsy or
      missing; for any other provider exactly when the api key is; and no
      provider warning without a truthy default. */
  lemma ValidationRules(general: Dict, pc: Dict, keyExists: string -> bool, name: string, fields: Dict)
    ensures var ws := Validate(general, pc, keyExists);
      Get(general, "default_provider") == Some(JStr(name)) && name != "" && GetOr(general, "ssh_key_path", JStr("")).JStr? ==>
        && (DefaultNotConfigured(name) in ws <==> !HasKey(pc, name))
        && (Get(pc, name) == Some(JObj(fields)) && name == "aws" ==>
              (MissingAwsCredentials(name) in ws <==> !TruthyAt(fields, "access_key") || !TruthyAt(fields, "secret_key"))
              && MissingApiKey(name) !in ws)
        && (Get(pc, name) == Some(JObj(fields)) && name != "aws" ==>
              (MissingApiKey(name) in ws <==> !TruthyAt(fields, "api_key"))
              && MissingAwsCredentials(name) !in ws)
    ensures !TruthyAt(general, "default_provider") ==> ProviderWarnings(general, pc) == []
    ensures Validate(general, pc, keyExists) == [] ==>
      (TruthyAt(general, "default_provider") && Get(general, "default_provider").value.JStr? ==>
        HasKey(pc, Get(general, "default_provider").value.s))
  {
    var path := GetOr(general, "ssh_key_path", JStr(""));
    if path.JStr? {
      var head := if keyExists(path.s) then [] else [SshKeyNotFound(path.s)];
      var ws := Validate(general, pc, keyExists);
      assert ws == head + ProviderWarnings(general, pc);
      assert forall w :: w in ws <==> w in head || w in ProviderWarnings(general, pc);
    }
  }

  // ---------------------------------------------------------------------
  // configure_general and configure_provider

  /** The console: the answer to a text prompt given its key and default, to
      the lifetime prompt given its default, to the provider choice (one of
      the registered providers) given its default, and to a yes/no
      confirmation about a provider. */
  datatype Console = Console(
    text: (string, string) -> string,
    number: Json -> int,
    choice: string -> Kind,
    confirm: string -> bool)

  /** The prompted keys of each provider, in prompt order. */
  function PromptKeys(k: Kind): seq<string> {
    match k
    case AwsKind => ["access_key", "secret_key", "default_region", "default_image", "default_type"]
    case LinodeKind => ["api_key", "default_region", "default_image", "default_type", "default_root_pass"]
    case HetznerKind => ["api_key", "default_region", "default_image", "default_type"]
  }

  /** The default of one prompt: the current value, else "" for a secret
      and the default configuration's value for anything else. */
  function PromptDefault(key: string, current: Dict, defaults: Dict): string {
    AsText(GetOr(current, key, if key in SECRET_KEYS then JStr("") else GetOr(defaults, key, JStr(""))))
  }

  function PromptAll(keys: seq<string>, current: Dict, defaults: Dict, console: Console): (r: Dict)
    ensures Keys(r) == keys
    ensures forall i :: 0 <= i < |keys| ==> r[i].1 == JStr(console.text(keys[i], PromptDefault(keys[i], current, defaults)))
  {
    if keys == [] then []
    else
      var rest := PromptAll(keys[1..], current, defaults, console);
      KeysCons((keys[0], JStr(console.text(keys[0], PromptDefault(keys[0], current, defaults)))), rest);
      [(keys[0], JStr(console.text(keys[0], PromptDefault(keys[0], current, defaults))))] + rest
  }

  /** configure_provider: a fresh dict of the provider's prompted keys. */
  function ConfigureProvider(k: Kind, current: Dict, console: Console): Dict {
    PromptAll(PromptKeys(k), ObjectFields(GetOr(current, NameOf(k), JObj([]))), ProviderDefaults(k), console)
  }

  /** The prompted keys are exactly the keys of the default configuration,
      in the same order, each once; and the secret prompts, whose default is
      "", are exactly the keys whose default value is "". Every default is a
      string. */
  lemma PromptKeysAreDefaultKeys(k: Kind)
    ensures PromptKeys(k) == Keys(ProviderDefaults(k))
    ensures UniqueKeys(ProviderDefaults(k))
    ensures forall i :: 0 <= i < |ProviderDefaults(k)| ==>
      ProviderDefaults(k)[i].1.JStr? && (ProviderDefaults(k)[i].0 in SECRET_KEYS <==> ProviderDefaults(k)[i].1 == JStr(""))
  {
    match k
    case AwsKind => AwsDefaultsShape();
    case LinodeKind => LinodeDefaultsShape();
    case HetznerKind => HetznerDefaultsShape();
  }

  lemma AwsDefaultsShape()
    ensures DefaultsShaped(AWS_DEFAULTS, PromptKeys(AwsKind))
  {
    DefaultsShapedOf(AWS_DEFAULTS, PromptKeys(AwsKind));
  }

  lemma LinodeDefaultsShape()
    ensures DefaultsShaped(LINODE_DEFAULTS, PromptKeys(LinodeKind))
  {
    DefaultsShapedOf(LINODE_DEFAULTS, PromptKeys(LinodeKind));
  }

  lemma HetznerDefaultsShape()
    ensures DefaultsShaped(HETZNER_DEFAULTS, PromptKeys(HetznerKind))
  {
    DefaultsShapedOf(HETZNER_DEFAULTS, PromptKeys(HetznerKind));
  }

  predicate DefaultsShaped(d: Dict, keys: seq<string>) {
    && keys == Keys(d)
    && UniqueKeys(d)
    && forall i :: 0 <= i < |d| ==> d[i].1.JStr? && (d[i].0 in SECRET_KEYS <==> d[i].1 == JStr(""))
  }

  lemma DefaultsShapedOf(d: Dict, keys: seq<string>)
    requires |d| == |keys|
    requires forall i :: 0 <= i < |d| ==> d[i].0 == keys[i]
    requires forall i, j :: 0 <= i < j < |keys| ==> keys[i] != keys[j]
    requires forall i :: 0 <= i < |d| ==> d[i].1.JStr? && (keys[i] in SECRET_KEYS <==> d[i].1 == JStr(""))
    ensures DefaultsShaped(d, keys)
  {
  }

  lemma SecretKeysListed(key: string)
    ensures key in SECRET_KEYS <==> key == "api_key" || key == "access_key" || key == "secret_key" || key == "default_root_pass"
  {
  }

  /** A key of a dict whose keys are unique reads as its own entry. */
  lemma GetUnique(d: Dict, i: nat)
    requires UniqueKeys(d)
    requires i < |d|
    ensures Get(d, d[i].0) == Some(d[i].1)
  {
    var j :| 0 <= j < |d| && d[j] == (d[i].0, Get(d, d[i].0).value);
  }

  /** Configuring a provider that has no configuration yet and accepting
      every default gives its default configuration. */
  lemma AcceptedDefaults(k: Kind, current: Dict, console: Console)
    requires !HasKey(current, NameOf(k))
    requires forall key, default :: console.text(key, default) == default
    ensures ConfigureProvider(k, current, console) == ProviderDefaults(k)
  {
    assert ObjectFields(GetOr(current, NameOf(k), JObj([]))) == [];
    PromptKeysAreDefaultKeys(k);
    PromptDefaults(PromptKeys(k), ProviderDefaults(k), console);
  }

  lemma PromptDefaults(keys: seq<string>, d: Dict, console: Console)
    requires DefaultsShaped(d, keys)
    requires forall key, default :: console.text(key, default) == default
    ensures PromptAll(keys, [], d, console) == d
  {
    var r := PromptAll(keys, [], d, console);
    assert |r| == |keys| == |d|;
    forall i | 0 <= i < |d| ensures r[i] == d[i] {
      var key := d[i].0;
      assert keys[i] == key;
      assert PromptDefault(key, [], d) == d[i].1.s by {
        GetUnique(d, i);
      }
      assert r[i].1 == JStr(console.text(key, d[i].1.s));
    }
  }

  const GENERAL_KEYS: seq<string> := ["ssh_key_path", "default_lifetime_minutes", "default_provider"]

  /** `DEFAULT_GENERAL_CONFIG[key]` for one of the general keys. */
  function GeneralDefault(key: string): Json
    requires key in GENERAL_KEYS
  {
    var d := DEFAULT_GENERAL_CONFIG;
    assert key == d[0].0 || key == d[1].0 || key == d[2].0;
    assert HasKey(d, key);
    Get(d, key).value
  }

  /** configure_general: the key path and the lifetime default to the
      current values, and the provider choice is one of the registered
      providers. */
  function ConfigureGeneral(current: Dict, console: Console): (r: Dict)
    ensures Keys(r) == GENERAL_KEYS == Keys(DEFAULT_GENERAL_CONFIG)
    ensures Get(r, "default_provider").Some? && Get(r, "default_provider").value.JStr?
    ensures Lookup(Get(r, "default_provider").value.s).Some?
  {
    var path := console.text("ssh_key_path", AsText(GetOr(current, "ssh_key_path", GeneralDefault("ssh_key_path"))));
    var lifetime := console.number(GetOr(current, "default_lifetime_minutes", GeneralDefault("default_lifetime_minutes")));
    var provider := console.choice(AsText(GetOr(current, "default_provider", GeneralDefault("default_provider"))));
    RegistryIsExactlyThree(NameOf(provider));
    [("ssh_key_path", JStr(path)), ("default_lifetime_minutes", JInt(lifetime)), ("default_provider", JStr(NameOf(provider)))]
  }

  // ---------------------------------------------------------------------
  // run_configure

  /** What the command leaves behind: the general configuration it saved
      (None when it did not touch it), the provider configuration it saved,
      and the warnings of the final validation. */
  datatype Saved = Saved(general: Option<Dict>, providers: Dict, warnings: seq<Warning>)

  const ALL_PROVIDERS: seq<Kind> := [LinodeKind, AwsKind, HetznerKind]

  /** The 'all' mode visits the keys of the default provider configuration,
      in their order. */
  lemma AllProvidersAreDefaultKeys()
    ensures |ALL_PROVIDERS| == |Keys(DEFAULT_PROVIDERS_CONFIG)|
    ensures forall i :: 0 <= i < |ALL_PROVIDERS| ==> NameOf(ALL_PROVIDERS[i]) == Keys(DEFAULT_PROVIDERS_CONFIG)[i]
  {
    DefaultsMatchRegistry();
  }

  /** The loop of the 'all' mode over the given providers, in order: a
      confirmed provider's entry is replaced by a freshly prompted one. */
  function ConfigureEach(provs: seq<Kind>, pc: Dict, console: Console): Dict {
    if provs == [] then pc
    else
      var name := NameOf(provs[0]);
      var next := if console.confirm(name) then Assign(pc, name, JObj(ConfigureProvider(provs[0], pc, console))) else pc;
      ConfigureEach(provs[1..], next, console)
  }

  /** `provider` is "all" or a registered provider name (the command line
      offers no other choice). */
  predicate IsChoice(provider: string) {
    provider == "all" || Lookup(provider).Some?
  }

  function RunConfigureSpec(provider: string, general: Dict, pc: Dict, console: Console, keyExists: string -> bool): Saved
    requires IsChoice(provider)
  {
    if provider == "all" then
      var g := ConfigureGeneral(general, console);
      var p := ConfigureEach(ALL_PROVIDERS, pc, console);
      Saved(Some(g), p, Validate(g, p, keyExists))
    else
      var k := Lookup(provider).value;
      var g := if general == [] then Some(ConfigureGeneral([], console)) else None;
      var p := Assign(pc, provider, JObj(ConfigureProvider(k, pc, console)));
      Saved(g, p, Validate(if g.Some? then g.value else general, p, keyExists))
  }

  /** A provider's prompts read only its own entry. */
  lemma ConfigureProviderReadsOwnEntry(k: Kind, a: Dict, b: Dict, console: Console)
    requires Get(a, NameOf(k)) == Get(b, NameOf(k))
    ensures ConfigureProvider(k, a, console) == ConfigureProvider(k, b, console)
  {
  }

  /** In the loop every provider is prompted with what was configured before
      the command started: the entry of a confirmed provider is replaced,
      every other entry is kept. */
  lemma {:induction false} ConfigureEachLookup(provs: seq<Kind>, pc: Dict, console: Console, k: Kind)
    requires forall i, j :: 0 <= i < j < |provs| ==> provs[i] != provs[j]
    ensures Get(ConfigureEach(provs, pc, console), NameOf(k))
      == if k in provs && console.confirm(NameOf(k)) then Some(JObj(ConfigureProvider(k, pc, console))) else Get(pc, NameOf(k))
  {
    if provs != [] {
      var k0 := provs[0];
      var name0 := NameOf(k0);
      var next := if console.confirm(name0) then Assign(pc, name0, JObj(ConfigureProvider(k0, pc, console))) else pc;
      ConfigureEachLookup(provs[1..], next, console, k);
      assert ConfigureEach(provs, pc, console) == ConfigureEach(provs[1..], next, console);
      if k != k0 {
        NamesDiffer(k, k0);
        assert Get(next, NameOf(k)) == Get(pc, NameOf(k));
        ConfigureProviderReadsOwnEntry(k, next, pc, console);
        assert k in provs <==> k in provs[1..];
      } else {
        assert k !in provs[1..];
      }
    }
  }

  lemma NamesDiffer(a: Kind, b: Kind)
    ensures a != b ==> NameOf(a) != NameOf(b)
  {
  }

  /** The 'all' mode saves a newly prompted general configuration and
      replaces exactly the confirmed providers' entries; the single-provider
      mode replaces only that provider's entry and saves a general
      configuration only when there was none. */
  lemma RunConfigureReplaces(provider: string, general: Dict, pc: Dict, console: Console, keyExists: string -> bool)
    requires IsChoice(provider)
    ensures var r := RunConfigureSpec(provider, general, pc, console, keyExists);
      && (provider == "all" ==>
            && r.general == Some(ConfigureGeneral(general, console))
            && forall k: Kind :: Get(r.providers, NameOf(k))
                 == if console.confirm(NameOf(k)) then Some(JObj(ConfigureProvider(k, pc, console))) else Get(pc, NameOf(k)))
      && (provider == "all" ==> forall name :: Lookup(name).None? ==> Get(r.providers, name) == Get(pc, name))
      && (provider != "all" ==>
            && (r.general.Some? <==> general == [])
            && Get(r.providers, provider) == Some(JObj(ConfigureProvider(Lookup(provider).value, pc, console)))
            && forall name :: name != provider ==> Get(r.providers, name) == Get(pc, name))
  {
    if provider == "all" {
      forall k: Kind ensures Get(ConfigureEach(ALL_PROVIDERS, pc, console), NameOf(k))
        == if console.confirm(NameOf(k)) then Some(JObj(ConfigureProvider(k, pc, console))) else Get(pc, NameOf(k))
      {
        ConfigureEachLookup(ALL_PROVIDERS, pc, console, k);
        assert k in ALL_PROVIDERS;
      }
      forall name | Lookup(name).None? ensures Get(ConfigureEach(ALL_PROVIDERS, pc, console), name) == Get(pc, name) {
        ConfigureEachOthers(ALL_PROVIDERS, pc, console, name);
      }
    }
  }

  /** An entry that names none of the looped providers is kept. */
  lemma {:induction false} ConfigureEachOthers(provs: seq<Kind>, pc: Dict, console: Console, name: string)
    requires forall i :: 0 <= i < |provs| ==> NameOf(provs[i]) != name
    ensures Get(ConfigureEach(provs, pc, console), name) == Get(pc, name)
  {
    if provs != [] {
      var k0 := provs[0];
      var next := if console.confirm(NameOf(k0)) then Assign(pc, NameOf(k0), JObj(ConfigureProvider(k0, pc, console))) else pc;
      ConfigureEachOthers(provs[1..], next, console, name);
    }
  }

  /** run_configure: the loop of the 'all' mode assigns into the provider
      configuration one confirmed provider at a time. */
  method RunConfigure(provider: string, general: Dict, pc: Dict, console: Console, keyExists: string -> bool)
    returns (r: Saved)
    requires IsChoice(provider)
    ensures r == RunConfigureSpec(provider, general, pc, console, keyExists)
  {
    var providers := pc;
    if provider == "all" {
      var g := ConfigureGeneral(general, console);
      for i := 0 to |ALL_PROVIDERS|
        invariant ConfigureEach(ALL_PROVIDERS, pc, console) == ConfigureEach(ALL_PROVIDERS[i..], providers, console)
      {
        var prov := ALL_PROVIDERS[i];
        assert ALL_PROVIDERS[i..][1..] == ALL_PROVIDERS[i + 1..];
        if console.confirm(NameOf(prov)) {
          providers := Assign(providers, NameOf(prov), JObj(ConfigureProvider(prov, providers, console)));
        }
      }
      r := Saved(Some(g), providers, Validate(g, providers, keyExists));
    } else {
      var g: Option<Dict> := None;
      var finalGeneral := general;
      if general == [] {
        var prompted := ConfigureGeneral([], console);
        g := Some(prompted);
        finalGeneral := prompted;
      }
      var k := Lookup(provider).value;
      providers := Assign(providers, provider, JObj(ConfigureProvider(k, providers, console)));
      r := Saved(g, providers, Validate(finalGeneral, providers, keyExists));
    }
  }
}
