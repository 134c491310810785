# gmab (Give Me A Box) in Dafny

gmab is a command-line tool that spawns, lists and terminates short-lived
cloud instances ("boxes") on Linode, AWS EC2 and Hetzner Cloud. It writes
each box's creation time and lifetime into vendor tags or labels at spawn
time. Later commands read those tags back to decide which boxes have
expired.

This project models the decisions the tool takes between the cloud
replies. The vendor replies, the clock (`now`), the random name
characters, the SSH-key files and the user's answers are all parameters,
so every operation is a deterministic function of its inputs. The project
then proves what those decisions guarantee.

Modules, in dependency order:

- `Common`: the JSON values of the configuration files, as `Json`/`Dict`. A `Dict` is an ordered association list, since Python dicts keep insertion order. Also: error values, `int()`/`str()` on integers, `str.strip`, `split(sep)[-1]`, and the dict operations `get` and `d[k] = v`.
- `Base`: the normalised instance record and the strict expiry test `now - creation > lifetime * 60`. Also the key/value expiry reading that AWS and Hetzner share, the random-name shape, the first lookup by label, and the prompt defaults.
- `Linode`, `Aws`, `Hetzner`: the three adapters. They cover:
  - lifetime tags and labels;
  - the list filter and the record mapping;
  - label lookup and the terminate dispatch;
  - spawn with its fallbacks and cleanup branches;
  - the request trace of every operation.
- `Providers`: the registry, the `get_provider` factory and the adapter object (`class Provider`), whose name the factory sets after construction.
- `Sorting`: the stable descending sort of the list command.
- `ListCommand`: `get_lifetime_left` and `list_boxes`.
- `SpawnCommand`: `spawn_box`.
- `TerminateCommand`: `get_instance_provider` and `terminate_box`.
- `Cli`: `get_configured_providers`, the provider guard, the "Time Left" column, and the `terminate` command in its 'expired', 'all' and explicit modes.
- `ConfigLoader`: the default configurations, file-name normalisation and `load_config`.
- `Configure`: `update_nested_dict`, secret masking in `print_configs`, the `validate_configs` rules, the prompts of `configure_general` and `configure_provider`, and `run_configure`.
- `Paths`: `get_config_dir` and `get_config_file_path`.
- `Setup`: `read_requirements`.

Where the source loops and updates variables, the model is a `method` with a
loop proved equal to a specification function, and the properties are lemmas
about that function. This covers:

- the Linode tag loop;
- the listing loops;
- the search loops;
- the terminate tally;
- the masking copy;
- the recursive merge;
- the `run_configure` loop.

The adapter object is a `class` whose `providerName` field the factory
assigns.

Some behaviours that follow from the code are proved explicitly:

- A Linode lifetime of `-5` is written as the tag `gmab-lifetime--5` and reads back as `5`, because only the last `-` segment is parsed (`Linode.NegativeLifetimeParsesAsMagnitude`).
- At the last second of a lifetime the list command already shows nothing left, while the adapters do not yet call the box expired (`ListCommand.ZeroLeftBeforeExpiry`). With less than a minute left the table already shows "expired" (`Cli.ShownExpiredBeforeExpiry`).
- Hetzner's lookup by label swallows a listing failure, so terminating by label then reports "not found" (`Hetzner.ListFailureReadsAsNotFound`).
- An indented comment line in the requirements file is kept as a requirement (`Setup.IndentedCommentKept`).

Four facts about the source:

- `aws.py` defines no `get_default_config` or `get_config_prompts`, although `tests/commands/test_configure.py` calls `AWSProvider.get_config_prompts`. The AWS prompt set is therefore the one `configure_provider` uses (`gmab/commands/configure.py:95-120`).
- `load_config` never raises `ConfigNotFoundError`, although `cli.py` catches it. A missing file is created with its defaults instead.
- `cli.py` imports `config_exists` from `config_loader.py`, which does not define it.
- `configure.py` imports `save_config` from `config_loader.py` (`gmab/commands/configure.py:7-10`), which defines only `load_config` and the two default dictionaries. Neither module defines `ConfigNotFoundError`, which both `cli.py` and `configure.py` import. As written, both modules therefore fail when imported.

## Model

| member | source | states |
|---|---|---|
| Base.ExpiryBoundary | gmab/providers/linode.py:236 | elapsed time exactly equal to the lifetime is not expired; one second more is |
| Base.MakeExpiry | gmab/providers/aws.py:203-206 | the expiry triple keeps creation and lifetime, and its flag is set exactly when elapsed seconds exceed lifetime*60 |
| Base.MarkStatus | gmab/providers/linode.py:273-274 | the status gets " (expired)" appended exactly when the box is expired, and is otherwise the vendor status |
| Base.ExpiredOnly | gmab/providers/linode.py:296-303 | list_expired_instances keeps exactly the records flagged expired, and no more than the listing |
| Base.ExpiredOnlyAppend | gmab/providers/aws.py:385-387 | the expired filter distributes over concatenation |
| Base.ExpiryFromPairs | gmab/providers/aws.py:198-206 | expiry info from a key/value dict succeeds exactly when both looked-up values (defaults "0", "60") parse under `int()` (sign, surrounding whitespace and digit-group underscores included), and then agrees with the strict test |
| Base.MapRecords | gmab/providers/aws.py:358-378 | the listing loop shared by AWS and Hetzner: records appended in item order, the first failing item ending the loop with its error (stated by the three lemmas below) |
| Base.MapRecordsErrorPersists | gmab/providers/aws.py:358-383 | an error on a prefix of the items is the error of the whole listing |
| Base.MapRecordsEach | gmab/providers/hetzner.py:310-328 | the listing succeeds exactly when every item maps, and then holds one record per item, in order |
| Base.MapRecordsSnoc | gmab/providers/aws.py:367-378 | one more item either fails the listing with its own error or appends its record |
| Base.MapEach | gmab/providers/hetzner.py:310-328 | the append loop computes MapRecords: the records of all items in order, or the error of the first item that does not map |
| Base.MissingKeysGiveDefaults | gmab/providers/hetzner.py:51-60 | without the two keys the info is creation 0, lifetime 60, expired exactly when now > 3600 |
| Base.LaterCreationPairWins | gmab/providers/aws.py:200-201 | in the dict built from the tags a later duplicate creation key decides the creation time |
| Base.DefaultTexts | gmab/providers/aws.py:201-202 | the default texts "0" and "60" parse as 0 and 60 |
| Base.KeyPath | gmab/providers/linode.py:100 | the key file of spawn_instance: the argument when truthy, else the configured ssh_key_path, else ~/.ssh/id_ed25519.pub |
| Base.RandomString | gmab/providers/aws.py:10-12 | a generated string has one character per draw, each a lowercase letter or digit |
| Base.GeneratedShape | gmab/providers/aws.py:221 | a generated name is the prefix followed by exactly as many lowercase letters or digits as there are draws |
| Base.FirstIdWithLabel | gmab/providers/linode.py:172-176 | the lookup answers None exactly when no record has the label, otherwise the id of the first record with it |
| Base.PromptDefaultsFrom | gmab/providers/linode.py:32-56 | the prompts are the adapter's default keys in order, each offering the current value or else the default |
| Linode.GetInstanceExpiryInfo | gmab/providers/linode.py:216-237 | the tag loop method computes ExpiryFromTags, returning the parse error of the first tag whose last segment `int()` rejects |
| Linode.ParseTagsFrom | gmab/providers/linode.py:229-233 | the tag loop from a given state, one TagStep per tag; its meaning is stated by the tag lemmas below |
| Linode.ExpiryFromTags | gmab/providers/linode.py:226-237 | the tag loop from creation 0 and lifetime 60, then the strict expiry test; its meaning is stated by NoExpiryTagsGiveDefaults, LastCreationTagWins and SpawnTagsRoundTrip |
| Linode.ParseTagsFromAppend | gmab/providers/linode.py:229-233 | the tag loop over a + b is the loop over b from the state after a; an error in a is final |
| Linode.NoExpiryTagsKeepState | gmab/providers/linode.py:229-233 | tags of neither prefix leave creation and lifetime unchanged |
| Linode.NoExpiryTagsGiveDefaults | gmab/providers/linode.py:226-227 | without creation or lifetime tags the info is creation 0, lifetime 60 |
| Linode.NoCreationTagKeepsCreation | gmab/providers/linode.py:230-231 | tags without the creation prefix never change the creation time |
| Linode.ParseTagsStep | gmab/providers/linode.py:229-233 | one successful loop iteration continues with the updated state |
| Linode.CreationStepValue | gmab/providers/linode.py:230-231 | a creation tag sets the creation time to the integer after its last '-' |
| Linode.LastCreationTagWins | gmab/providers/linode.py:229-233 | with several creation tags, the last one decides the creation time |
| Linode.TagPrefixFacts | gmab/providers/linode.py:124-128 | the written creation and lifetime tags each match only their own prefix, and the owner tag matches neither |
| Linode.SegmentOfIntText | gmab/providers/linode.py:231 | the last '-' segment of prefix + str(v) is the decimal text of abs(v) |
| Linode.SegmentValue | gmab/providers/linode.py:231 | that segment parses as abs(v) |
| Linode.CreationTagStep | gmab/providers/linode.py:229-231 | reading a written creation tag sets the creation time to abs(v) and keeps the lifetime |
| Linode.LifetimeTagStep | gmab/providers/linode.py:232-233 | reading a written lifetime tag sets the lifetime to abs(v) and keeps the creation time |
| Linode.SpawnTagsParse | gmab/providers/linode.py:124-128 | the three spawn tags parse to the magnitudes of the values written |
| Linode.SpawnTagsRoundTrip | gmab/providers/linode.py:124-128 | for non-negative values the spawn tags parse back to exactly (creation_time, lifetime_minutes) |
| Linode.NegativeLifetimeParsesAsMagnitude | gmab/providers/linode.py:229-233 | a negative lifetime is read back as its magnitude |
| Linode.ToRecord | gmab/providers/linode.py:270-287 | a listed record is built exactly when the tags parse; it carries the provider name, str(id), label, suffixed status, ipv4[0] or "No IP Assigned", the region and image when present and "Unknown" when absent, and an expiry flag agreeing with the strict test |
| Linode.Tagged | gmab/providers/linode.py:269 | the kept servers are exactly those whose tag list contains "gmab" |
| Linode.RecordsOfTagged | gmab/providers/linode.py:268-287 | a successful listing has one record per gmab-tagged server, in API order |
| Linode.ListSpec | gmab/providers/linode.py:249-294 | a falsy api_key fails with the ValueError before any request; a network failure fails with "Network error when listing Linodes: ", past the generic handler; a rejected status fails with "Failed to list Linode instances: Failed to list Linodes: " and the response text; a reply succeeds exactly when every tagged server maps, and is then their records, otherwise the record error with the listing prefix |
| Linode.ListInstances | gmab/providers/linode.py:239-294 | the append loop computes the listing specification, network and status prefixes included, and issues no request without a token |
| Linode.RecordsErrorPersists | gmab/providers/linode.py:268-294 | an error on a prefix of the servers is the error of the whole listing |
| Linode.ListExpiredInstances | gmab/providers/linode.py:296-303 | list_expired_instances is the listing filtered by is_expired, with the listing's error |
| Linode.SpawnedServerListsBack | gmab/providers/linode.py:124-128 | a server carrying the spawn tags is listed, with the creation time and lifetime written |
| Linode.GetInstanceIdByLabel | gmab/providers/linode.py:162-176 | the first-match loop returns the id of the first listed record with the label, and propagates a listing error |
| Linode.TerminateSpec | gmab/providers/linode.py:188-214 | no token fails before any request; an all-digit id is deleted directly; otherwise the first label match is deleted, and a miss or a listing error fails before any delete; the result is Ok exactly when the id resolves and the delete reply is a success; a delete network failure fails with "Network error when terminating Linode: ", a rejected status with "Failed to terminate Linode instance: Linode deletion failed: " and the text |
| Linode.TerminateInstance | gmab/providers/linode.py:178-214 | the method computes the terminate specification, requests and both error prefixes included |
| Linode.SpawnSettings | gmab/providers/linode.py:81-100 | image and region fall back only when None (an empty string is kept): to the configured value, else linode/ubuntu22.04 / us-east; type defaults to g6-nanode-1; the root password is the configured value, else ChangeMe123!; a missing lifetime becomes 60; the key file is the one Base.KeyPath picks |
| Linode.SpawnSpec | gmab/providers/linode.py:58-160 | no token fails before any request; a missing key file fails with the FileNotFoundError after the key-file step and before any create request; otherwise one create request carries the settings, the stripped key, the name and the spawn tags, and succeeds exactly when the create reply does; a network failure fails with "Network error when creating Linode: ", a rejected status with "Failed to create Linode instance: Linode creation failed: " and the text; a success is a spawn-shaped record with a "gmab-" name of 12 drawn characters, creation time now, the chosen lifetime, the settled image and region, and the id, first IPv4 address (else "No IP Assigned") and status of the create reply |
| Linode.SpawnThenParse | gmab/providers/linode.py:124-128 | the tags of a successful spawn request parse back to the returned creation time and lifetime |
| Linode.PromptDefaults | gmab/providers/linode.py:22-56 | the prompt keys are the default-config keys in order, each offering the current value or else the default |
| Aws.FirstTagValueSpec | gmab/providers/aws.py:360 | the Name lookup gives the default without a Name tag, otherwise the value of the first Name tag |
| Aws.SpawnTagsRoundTrip | gmab/providers/aws.py:264-272 | the spawn tags carry gmab=true and Name=label, and parse back to the creation time and lifetime written, for every integer |
| Aws.FilterInstances | gmab/providers/aws.py:350-355 | the describe filter keeps exactly the gmab=true instances in a live state, with the Name filter when given |
| Aws.FilterAppend | gmab/providers/aws.py:350-355 | the filter distributes over concatenation |
| Aws.Select | gmab/providers/aws.py:358-359 | each reservation is reduced to its matching instances, in order |
| Aws.FlattenSelect | gmab/providers/aws.py:358-359 | filtering reservation by reservation equals filtering the whole account |
| Aws.DropLast | gmab/providers/aws.py:373 | zone[:-1] is the zone without its last character ("" for "") |
| Aws.ToRecord | gmab/providers/aws.py:360-378 | a record is built exactly when the expiry info parses |
| Aws.ToRecordFields | gmab/providers/aws.py:360-378 | a listed record carries the id, the first Name tag or "Unknown", the suffixed state, the public address or "No IP Assigned", the zone without its last character, the image and an expiry flag agreeing with the strict test |
| Aws.RecordsOfEach | gmab/providers/aws.py:358-378 | a successful listing maps every instance, one record each, in order |
| Aws.ListSpec | gmab/providers/aws.py:347-383 | every listing error carries the "Failed to list AWS instances: " prefix |
| Aws.ListedAreTaggedAndLive | gmab/providers/aws.py:350-378 | each listed record comes from a gmab-tagged instance in a pending, running, stopping or stopped state |
| Aws.ListSpecOfInventory | gmab/providers/aws.py:358-383 | with the account listed, the listing is the records of the filtered reservations, its error wrapped |
| Aws.ListInstances | gmab/providers/aws.py:347-383 | the method computes the listing specification with one describe request |
| Aws.RecordReservations | gmab/providers/aws.py:358-378 | the nested loops compute the records of all instances of all reservations, in order |
| Aws.RecordBatch | gmab/providers/aws.py:359-378 | the inner loop extends the records so far by one reservation's records |
| Aws.BatchStep | gmab/providers/aws.py:359-378 | one inner iteration either fails the listing or appends one record |
| Aws.RecordsPrefixError | gmab/providers/aws.py:358-383 | an error on the first k reservations is the error of the whole listing |
| Aws.FlattenPrefix | gmab/providers/aws.py:358-359 | the instances of the first k reservations begin the flattened sequence |
| Aws.ListExpiredInstances | gmab/providers/aws.py:385-387 | list_expired_instances is the listing filtered by is_expired, with the listing's error |
| Aws.LookupSpec | gmab/providers/aws.py:179-196 | the label lookup answers the first filtered instance, None when none matches, and None on any error |
| Aws.LookupFindsTaggedName | gmab/providers/aws.py:182-192 | a found id belongs to a live gmab-tagged instance whose Name tag is the label |
| Aws.GetInstanceIdByLabel | gmab/providers/aws.py:179-196 | the loops with early return compute the lookup specification |
| Aws.FindById | gmab/providers/aws.py:332-333 | describing by id finds an instance with that id, or none exists |
| Aws.TerminateSpec | gmab/providers/aws.py:316-345 | every error has the terminate prefix; an "i-" id is described directly; otherwise a lookup miss fails after only the lookup; when the resolved id is described, the last request terminates exactly that id, and its "gmab-key-" key pair, if it owns one, is deleted before; no other key pair is deleted and nothing is terminated when the id is not described; the result is Ok exactly when the id is described and the terminate request succeeds |
| Aws.KeyDeletionFailureIgnored | gmab/providers/aws.py:337-343 | the reply to the key-pair deletion changes neither the result nor the requests |
| Aws.TerminateInstance | gmab/providers/aws.py:316-345 | the method computes the terminate specification, requests included |
| Aws.SpawnSettings | gmab/providers/aws.py:210-231 | region and image take the argument when truthy, else the configured value, else us-east-1 / ami-0574da719dca65348; the instance type is the configured one, else t2.micro; a missing lifetime becomes 60; the key file is the one Base.KeyPath picks |
| Aws.LaunchStage | gmab/providers/aws.py:254-314 | the launch request carries the image, type, key name and spawn tags; a failed launch deletes the key pair; a failure after launch terminates the instance and deletes the key pair only if that succeeded; success returns the instance's record |
| Aws.LaunchDetailsFailure | gmab/providers/aws.py:307-314 | a lost instance is terminated and its key pair removed exactly when the termination succeeded |
| Aws.LaunchInstance | gmab/providers/aws.py:254-314 | the method computes the launch stage |
| Aws.SpawnFrom | gmab/providers/aws.py:230-314 | a missing key file fails after only the file check; the key import uses the stripped file content; success needs every step to succeed |
| Aws.SpawnSpec | gmab/providers/aws.py:208-314 | the key name has the "gmab-key-" + 8 shape; a success is a spawn-shaped record with a "gmab-" + 12 name, creation time now, the chosen lifetime, region and image |
| Aws.SpawnLaunchRequest | gmab/providers/aws.py:256-275 | the launch is reached exactly after a successful import, and carries the generated names and spawn tags |
| Aws.SpawnReachesLaunch | gmab/providers/aws.py:240-314 | past the key import, spawn is the launch stage after the import requests |
| Aws.SpawnLaunchFailureCleanup | gmab/providers/aws.py:276-282 | a failed launch reports the launch prefix and ends by deleting the imported key pair |
| Aws.SpawnDetailsFailureCleanup | gmab/providers/aws.py:307-314 | a failure once the instance exists reports the details prefix and terminates it |
| Aws.SpawnedInstanceListsBack | gmab/providers/aws.py:264-272 | a live instance with the spawn tags is listed and found by its label, with the name, creation time and lifetime written |
| Aws.SpawnInstance | gmab/providers/aws.py:208-314 | the method computes the spawn specification |
| Aws.SpawnSteps | gmab/providers/aws.py:230-314 | the step-by-step body computes spawn for fixed settings and names |
| Hetzner.CheckConfig | gmab/providers/hetzner.py:31-33 | construction succeeds exactly when api_key is present and truthy, otherwise with the ValueError |
| Hetzner.SpawnLabelsRoundTrip | gmab/providers/hetzner.py:203-207 | the spawn labels carry gmab=true and parse back to the creation time and lifetime written |
| Hetzner.SelectOwned | gmab/providers/hetzner.py:302 | the label selector keeps exactly the servers carrying the "gmab" label |
| Hetzner.ToRecord | gmab/providers/hetzner.py:311-328 | a record is built exactly when the labels parse and the ipv4 and image objects are not null |
| Hetzner.ToRecordFields | gmab/providers/hetzner.py:311-328 | a listed record carries str(id), the name, the suffixed status, the address or "No IP Assigned", the location, the image name and an expiry flag agreeing with the strict test |
| Hetzner.RecordsOfEach | gmab/providers/hetzner.py:310-328 | the listing succeeds exactly when every server maps, one record each in order |
| Hetzner.ListSpec | gmab/providers/hetzner.py:298-335 | a network error and a bad status fail with their prefixes |
| Hetzner.ListedAreSelected | gmab/providers/hetzner.py:298-330 | each listed record comes from a selected server of the reply |
| Hetzner.ListInstances | gmab/providers/hetzner.py:288-335 | the append loop computes the listing specification |
| Hetzner.ListExpiredInstances | gmab/providers/hetzner.py:337-344 | list_expired_instances is the listing filtered by is_expired, with the listing's error |
| Hetzner.SpawnedServerListsBack | gmab/providers/hetzner.py:203-207 | a server carrying the spawn labels is selected and listed with the creation time and lifetime written |
| Hetzner.GetInstanceIdByLabel | gmab/providers/hetzner.py:234-252 | the loop returns the first listed id with the label, and None on any listing failure |
| Hetzner.TerminateSpec | gmab/providers/hetzner.py:254-286 | an all-digit id is deleted directly; otherwise the first label match is deleted and a miss fails before any delete; success exactly when the delete succeeds and the id was direct or found |
| Hetzner.ListFailureReadsAsNotFound | gmab/providers/hetzner.py:244-269 | a listing failure during the lookup surfaces as the not-found error |
| Hetzner.TerminateInstance | gmab/providers/hetzner.py:254-286 | the method computes the terminate specification, requests included |
| Hetzner.FirstMatchingKeySpec | gmab/providers/hetzner.py:88-90 | key reuse answers None exactly when no stripped public key equals the content, otherwise the id of the first that does |
| Hetzner.KeySpec | gmab/providers/hetzner.py:75-112 | the key stage always starts by listing the keys |
| Hetzner.MatchingKeyReused | gmab/providers/hetzner.py:88-90 | the first matching key is reused and nothing is uploaded |
| Hetzner.NoMatchUploads | gmab/providers/hetzner.py:93-107 | without a match exactly one "gmab-key-" upload of the content follows, and its id is the result when it succeeds |
| Hetzner.GetOrCreateSshKey | gmab/providers/hetzner.py:62-112 | the search loop with early return computes the key stage |
| Hetzner.SpawnSettings | gmab/providers/hetzner.py:164-178 | image and region take the argument when truthy, else the configured value, else ubuntu-22.04 / nbg1; the server type is the configured one, else cpx11; a missing lifetime becomes 60; the key file is the one Base.KeyPath picks |
| Hetzner.CreateStage | gmab/providers/hetzner.py:194-227 | one create request; success exactly when it succeeds with a non-null address object, and then the record holds str(id), the public_net.ipv4 address or "No IP Assigned", the reported status, the name, region and image asked for, creation time now and the chosen lifetime |
| Hetzner.SpawnFrom | gmab/providers/hetzner.py:178-232 | a missing key file fails after only the file check |
| Hetzner.SpawnUsesChosenKey | gmab/providers/hetzner.py:189-227 | a successful spawn created the server with the key the key stage chose, and returns a spawn-shaped record with the name, creation time, lifetime, region and image, and the id, address and status of the create reply |
| Hetzner.KeyFailureStopsSpawn | gmab/providers/hetzner.py:189-232 | a key-stage failure ends the spawn, wrapped, before any create request |
| Hetzner.SpawnSpec | gmab/providers/hetzner.py:145-232 | spawn begins with the key-file check at the chosen path |
| Hetzner.SpawnRecordShape | gmab/providers/hetzner.py:145-232 | a successful spawn returns a spawn-shaped record with a "gmab-" + 12 name, the settled region and image, the id, address and status of the create reply, and its create request's labels parse back to its creation time and lifetime |
| Hetzner.SpawnInstance | gmab/providers/hetzner.py:145-232 | the method computes the spawn specification |
| Hetzner.PromptDefaults | gmab/providers/hetzner.py:114-143 | the prompt keys are api_key, default_region, default_image, default_type, each offering the current value or else the default |
| Providers.Lookup | gmab/providers/__init__.py:21-27 | a found adapter is registered under the name; None means no adapter has that name |
| Providers.RegistryIsExactlyThree | gmab/providers/__init__.py:21-25 | the registry holds exactly linode, aws and hetzner, one adapter each |
| Providers.LinodeListShaped | gmab/providers/base.py:69-79 | Linode listings are list-shaped records stamped with the adapter's name |
| Providers.AwsListShaped | gmab/providers/base.py:69-79 | AWS listings are list-shaped records stamped with the adapter's name |
| Providers.HetznerListShaped | gmab/providers/base.py:69-79 | Hetzner listings are list-shaped records stamped with the adapter's name |
| Providers.ListContract | gmab/providers/base.py:69-79 | list_instances of every adapter returns list-shaped records stamped with its name |
| Providers.ListExpiredContract | gmab/providers/base.py:82-92 | list_expired_instances returns list-shaped records that are all expired, and includes every expired listed record |
| Providers.SpawnContract | gmab/providers/base.py:26-53 | spawn_instance of every adapter returns a spawn-shaped record stamped with its name and creation time now |
| Providers.Provider.constructor | gmab/providers/base.py:22-23 | the configuration is stored unchanged and provider_name is unset |
| Providers.Provider.ListInstances | gmab/providers/base.py:68-79 | the object dispatches list_instances to its adapter with its own configuration and name |
| Providers.Provider.ListExpiredInstances | gmab/providers/base.py:81-92 | the object dispatches list_expired_instances to its adapter |
| Providers.Provider.TerminateInstance | gmab/providers/base.py:55-66 | the object dispatches terminate_instance, by id or name, to its adapter |
| Providers.Provider.SpawnInstance | gmab/providers/base.py:25-53 | the object dispatches spawn_instance to its adapter |
| Providers.FactorySpec | gmab/providers/__init__.py:27-36 | an unknown name fails first, then a falsy configuration, then the Hetzner api_key check; success names the requested adapter |
| Providers.GetProvider | gmab/providers/__init__.py:7-36 | the factory returns the factory errors, or a fresh adapter of the requested kind holding the configuration, with provider_name set to the requested name |
| Sorting.WithKeyAppend | gmab/commands/list.py:48 | the records with a given key distribute over concatenation |
| Sorting.InsertPermutes | gmab/commands/list.py:48 | one insertion adds exactly its element |
| Sorting.InsertElements | gmab/commands/list.py:48 | an insertion introduces no other element |
| Sorting.InsertSorted | gmab/commands/list.py:48 | insertion keeps the order non-increasing |
| Sorting.InsertStable | gmab/commands/list.py:48 | insertion puts the element after every equal key already present |
| Sorting.SortDescSpec | gmab/commands/list.py:48 | the sort orders by non-increasing lifetime_left, is a permutation, and keeps input order among equal keys |
| ListCommand.LifetimeLeft | gmab/commands/list.py:7-12 | lifetime left is never negative |
| ListCommand.LifetimeLeftZero | gmab/commands/list.py:11-12 | nothing is left exactly when elapsed seconds reach lifetime*60; otherwise it is lifetime minus elapsed minutes |
| ListCommand.ZeroLeftBeforeExpiry | gmab/commands/list.py:12 | at the last second of the lifetime nothing is left, yet the box is not expired |
| ListCommand.MissingKeysDefault | gmab/commands/list.py:9-10 | a record without the two keys reads as creation 0 and lifetime 60 |
| ListCommand.Annotated | gmab/commands/list.py:44-45 | each record gains lifetime_left and nothing else changes |
| ListCommand.CollectAllAppend | gmab/commands/list.py:27-33 | visiting two configuration parts concatenates their results |
| ListCommand.FailingProviderSkipped | gmab/commands/list.py:29-33 | a provider whose construction or listing fails contributes nothing, and later providers are still visited |
| ListCommand.FailureContributesNothing | gmab/commands/list.py:32-33 | a failing provider's contribution is empty |
| ListCommand.SingleCollected | gmab/commands/list.py:28-31 | one configured provider contributes its listing |
| ListCommand.CollectNamed | gmab/commands/list.py:35-41 | a missing or falsy named configuration fails with the not-configured error |
| ListCommand.ListBoxesOrdered | gmab/commands/list.py:44-50 | the output is sorted non-increasing, a permutation of the annotated records, stable among equal keys |
| ListCommand.ListBoxes | gmab/commands/list.py:14-50 | the method computes the list_boxes specification |
| ListCommand.CollectInstances | gmab/commands/list.py:27-33 | the loop over the configured providers computes the concatenation of their contributions |
| ListCommand.ListNamed | gmab/commands/list.py:35-41 | the named mode computes its specification, errors propagated |
| ListCommand.AnnotateAll | gmab/commands/list.py:44-45 | the annotation loop computes the annotated records |
| SpawnCommand.Choose | gmab/commands/spawn.py:24-26 | a truthy region, image or lifetime argument is used; otherwise the configured value (lifetime from the general configuration), else us-east / linode/ubuntu22.04 / 60 |
| SpawnCommand.SpawnFailure | gmab/commands/spawn.py:47-51 | a missing configuration passes unchanged; every other error gets the "Failed to spawn instance: " prefix |
| SpawnCommand.SpawnErrorsPrefixed | gmab/commands/spawn.py:18-51 | every non-config failure is prefixed; an unconfigured provider fails before any adapter is built, whatever the cloud |
| SpawnCommand.SpawnDefaults | gmab/commands/spawn.py:14-26 | without a provider argument the general default, else "linode", is used; a lifetime of 0 is replaced like a missing one |
| SpawnCommand.SpawnedRecord | gmab/commands/spawn.py:18-37 | a spawned record is spawn-shaped, stamped with the chosen provider, and needed a configured provider and an ssh_key_path |
| SpawnCommand.SpawnBox | gmab/commands/spawn.py:7-51 | the method computes spawn_box with its error handler |
| SpawnCommand.RunSpawnSteps | gmab/commands/spawn.py:9-44 | the steps inside the handler compute their specification |
| TerminateCommand.SearchSkipsMisses | gmab/commands/terminate.py:28-35 | providers that answered without the instance are skipped |
| TerminateCommand.SearchFindsFirstHolder | gmab/commands/terminate.py:28-35 | the first provider, in configuration order, holding a matching id or label is the answer |
| TerminateCommand.SearchResultMeaning | gmab/commands/terminate.py:28-37 | a found entry is the first holder after answered misses; None means every provider answered without a match |
| TerminateCommand.ResolvedIsAccepted | gmab/commands/terminate.py:7-37 | a resolved provider is a configured entry the factory accepts |
| TerminateCommand.AwsFormNeedsNoListing | gmab/commands/terminate.py:13-25 | an "i-" id with aws configured resolves to aws without listing anything |
| TerminateCommand.GetInstanceProvider | gmab/commands/terminate.py:7-37 | the nested search loop returns the resolver's errors, None, or a fresh adapter built from the found entry |
| TerminateCommand.ProbeProvider | gmab/commands/terminate.py:28-35 | one search round builds the adapter and reports whether its listing holds the identifier, errors propagated |
| TerminateCommand.TerminatedThroughConfigured | gmab/commands/terminate.py:39-59 | a success went through a configured provider: the named one when given, otherwise the one resolved |
| TerminateCommand.TerminateBox | gmab/commands/terminate.py:39-59 | the method computes terminate_box |
| Cli.ConfiguredProviders | gmab/cli.py:18-24 | the configured names are exactly the keys of the loaded provider configuration, none on failure |
| Cli.Rejected | gmab/cli.py:66-69 | the guard `provider and provider not in get_configured_providers()`: a non-empty --provider outside the configured names; used by PlanOf and stated by PlanReached |
| Cli.FormatTimeLeft | gmab/cli.py:251-255 | the "Time Left" cell; its meaning is stated by TimeLeftReadsBack and ShownExpiredBeforeExpiry |
| Cli.TimeLeftReadsBack | gmab/cli.py:251-255 | "expired" exactly below one minute; otherwise the truncated minutes, at least 1, followed by "m" |
| Cli.ShownExpiredBeforeExpiry | gmab/cli.py:251-255 | thirty seconds before expiry the column reads "expired" while the box is not expired |
| Cli.Attempts | gmab/cli.py:170-177 | one terminate_box result per target, the k-th seeing the vendors as cloudAt(k) |
| Cli.Attempt | gmab/commands/terminate.py:39-58 | one terminate_box call: a provider configuration that does not load fails the call with that error, otherwise the call is TerminateBoxSpec on the loaded configuration |
| Cli.FailedPositionsSpec | gmab/cli.py:170-177 | the failed positions are exactly the failed calls, increasing |
| Cli.TallyAccounts | gmab/cli.py:170-177 | successes plus failures equal the targets, and failures keep input order with their messages |
| Cli.RunTargets | gmab/cli.py:170-177 | the loop with its counter and failure list computes the tally of every attempt |
| Cli.BulkTargets | gmab/cli.py:101-139 | bulk modes terminate each record through its own provider field |
| Cli.ExplicitTargets | gmab/cli.py:172-174 | explicit identifiers keep their order and share the --provider option |
| Cli.PlanOf | gmab/cli.py:57-168 | the branch order of the command before its loops: not set up, the provider guard, the bulk modes over the listing, then the identifier bounds and confirmation; stated by PlanReached |
| Cli.BulkListing | gmab/commands/list.py:14-50 | what list_boxes gives the bulk modes: the load error of a provider configuration that does not load, otherwise the list specification |
| Cli.TerminateSpec | gmab/cli.py:57-191 | the terminate command: PlanOf on the configured names and the bulk listing, then the tally of every attempt; stated by TerminationReached and LoadErrorReported |
| Cli.LoadErrorReported | gmab/cli.py:57-191 | a provider configuration that does not load is reported, not read as empty: the bulk modes end with its message, and every explicit identifier attempted fails with it, so nothing succeeds |
| Cli.PlanReached | gmab/cli.py:62-168 | a plan that reaches the loop passed the guards, the confirmation unless single, the 1..5 bounds, and targets the listing (expired-only for 'expired') |
| Cli.TerminationReached | gmab/cli.py:57-191 | a run that reaches the loop passed every guard, targets what the mode selects, and accounts for every target |
| Cli.ExpiredTargets | gmab/cli.py:80-101 | the 'expired' targets are exactly the listed expired records |
| Cli.Terminate | gmab/cli.py:57-191 | the command method computes its specification, the load error of the provider configuration carried to the listing and to each attempt |
| Cli.PlanTerminate | gmab/cli.py:62-168 | the branches before the loop compute the plan; a bulk mode whose provider configuration does not load stops with the load message |
| ConfigLoader.DefaultsMatchRegistry | gmab/utils/config_loader.py:8-35 | the default providers are exactly the registered ones in order, each with its defaults; lifetime 60 and provider linode |
| ConfigLoader.ActualFilename | gmab/utils/config_loader.py:43-52 | the file name load_config reads; its meaning is stated by ActualFilenameSpec |
| ConfigLoader.ActualFilenameSpec | gmab/utils/config_loader.py:43-52 | normalising is idempotent; old-style paths lose their directories; general.json becomes config.json; other names are kept |
| ConfigLoader.LoadConfig | gmab/utils/config_loader.py:37-68 | a missing file is written with its defaults and read back; an unreadable one reads as {}; otherwise the parsed document |
| ConfigLoader.LoadTwice | gmab/utils/config_loader.py:56-65 | after the first load has written the defaults, a second load writes nothing and reads the same document |
| Configure.MergeEntryLookup | gmab/commands/configure.py:15-18 | one update entry changes only its own key, as the merge rule says |
| Configure.MergeFromLookup | gmab/commands/configure.py:14-18 | after the remaining updates, every key holds the merge of its original and update values |
| Configure.MergeLookup | gmab/commands/configure.py:12-19 | absent keys and None updates keep the original; two dicts merge recursively; other values are stored; keys are never lost |
| Configure.MergeNothing | gmab/commands/configure.py:14 | an empty update leaves the dict unchanged |
| Configure.UpdateNestedDict | gmab/commands/configure.py:12-19 | the recursive loop computes the merge |
| Configure.MaskFields | gmab/commands/configure.py:42-44 | each field is masked on its own, in order |
| Configure.MaskFieldsLookup | gmab/commands/configure.py:42-44 | keys are kept; exactly the present secret keys read as "********" |
| Configure.MaskedProvidersSpec | gmab/commands/configure.py:40-45 | masking succeeds exactly when every provider masks, and then maps each in order |
| Configure.MaskSecrets | gmab/commands/configure.py:38-50 | the nested loops over a copy compute the masked document, or the reading error |
| Configure.MaskOne | gmab/commands/configure.py:42-44 | the inner loop computes one provider's masking |
| Configure.MaskedStep | gmab/commands/configure.py:41-44 | one masked provider extends the masked prefix |
| Configure.MaskedFailsAt | gmab/commands/configure.py:41-50 | a provider that cannot be masked makes the whole display the reading error |
| Configure.MaskedErrIsUnreadable | gmab/commands/configure.py:49-50 | every masking failure is the reading error |
| Configure.MaskProviderFields | gmab/commands/configure.py:42-44 | the loop over one provider's keys computes the masked fields |
| Configure.ProviderWarnings | gmab/commands/configure.py:180-191 | at most one warning about the default provider |
| Configure.ValidationRules | gmab/commands/configure.py:180-193 | unconfigured exactly when not a key; aws warns exactly on a falsy credential; others exactly on a falsy api_key; nothing without a truthy default |
| Configure.Validate | gmab/commands/configure.py:169-193 | validate_configs: the key-file warning first, then the provider rules stated by ValidationRules |
| Configure.ValidateKeyFile | gmab/commands/configure.py:175-193 | for a string path, the missing-key warning is given exactly when the file does not exist, comes first and is the only key-file warning; any other path value gives exactly the could-not-validate warning |
| Configure.PromptAll | gmab/commands/configure.py:87-167 | the answers form a dict with the prompted keys in order, each the answer to its prompt |
| Configure.PromptKeysAreDefaultKeys | gmab/commands/configure.py:91-167 | each provider prompts exactly its default keys in order; secrets default to "" |
| Configure.AwsDefaultsShape | gmab/commands/configure.py:95-120 | the AWS prompts match the AWS defaults |
| Configure.LinodeDefaultsShape | gmab/commands/configure.py:122-146 | the Linode prompts match the Linode defaults |
| Configure.HetznerDefaultsShape | gmab/commands/configure.py:148-167 | the Hetzner prompts match the Hetzner defaults |
| Configure.AcceptedDefaults | gmab/commands/configure.py:87-167 | with no entry and every default accepted, a provider is configured with its defaults |
| Configure.PromptDefaults | gmab/commands/configure.py:91-167 | accepting every offered default from nothing gives the default dict |
| Configure.ConfigureGeneral | gmab/commands/configure.py:54-85 | the general configuration has the default keys in order and a registered default provider |
| Configure.ConfigureProviderReadsOwnEntry | gmab/commands/configure.py:91 | a provider's prompts read only its own entry |
| Configure.ConfigureEachLookup | gmab/commands/configure.py:218-220 | after the loop each provider holds a fresh configuration exactly when confirmed, else its old entry |
| Configure.ConfigureEachOthers | gmab/commands/configure.py:218-220 | entries of other names are kept |
| Configure.RunConfigureReplaces | gmab/commands/configure.py:212-232 | 'all' saves general and replaces exactly the confirmed providers; a named run saves general exactly when it was empty and changes only that provider |
| Configure.AllProvidersAreDefaultKeys | gmab/commands/configure.py:218 | the providers the 'all' mode visits are the keys of the default provider configuration, in order |
| Configure.RunConfigure | gmab/commands/configure.py:195-235 | the method computes the run_configure specification |
| Paths.ConfigDirPrecedence | gmab/utils/paths.py:7-29 | GMAB_CONFIG_DIR overrides everything; linux/darwin use XDG_CONFIG_HOME or ~/.config plus gmab; failure exactly on Windows without APPDATA; other rules end in gmab or .gmab |
| Paths.ConfigDir | gmab/utils/paths.py:7-29 | get_config_dir; its meaning is stated by ConfigDirPrecedence |
| Paths.ConfigFilePath | gmab/utils/paths.py:31-42 | a file path is the directory joined with the name, failing exactly when the directory does |
| Paths.ConfigFilesSideBySide | gmab/utils/paths.py:41-42 | two configuration files differ only in their last segment |
| Setup.RequirementsSpec | setup.py:5-7 | the requirements are the stripped kept lines in input order, one per kept line, each non-empty and stripped |
| Setup.ReadRequirements | setup.py:5-7 | read_requirements over the file given as lines; its meaning is stated by RequirementsSpec |
| Setup.IndentedCommentKept | setup.py:7 | "  # x" is kept as "# x"; "# x" and blank lines are dropped |
| Common.Wrap | gmab/commands/spawn.py:51 | a wrapped error is a failure whose message starts with the prefix |
| Common.ParseIntOfIntToString | gmab/providers/aws.py:201-202 | int(str(i)) == i for every integer |
| Common.ParseInt | gmab/providers/linode.py:231 | `int()` on text; its meaning is stated by the four lemmas below |
| Common.ParseIntSigned | gmab/providers/aws.py:201-202 | a digit string reads as its value, with a '+' sign as the same value and with a '-' sign as its negation |
| Common.ParseIntPadded | gmab/providers/aws.py:201-202 | whitespace around the text does not change what it reads as |
| Common.ParseIntUnderscore | gmab/providers/hetzner.py:55-56 | an underscore between two digit groups is skipped |
| Common.ParseIntRejectsUnderscores | gmab/providers/hetzner.py:55-56 | a doubled, leading or trailing underscore is a parse failure |
| Common.LastSegment | gmab/providers/linode.py:231 | split(sep)[-1] contains no separator |
| Common.LastSegmentAfterSeparator | gmab/utils/config_loader.py:44 | the last segment after a trailing separator is what follows it |
| Common.StripSpec | setup.py:6 | strip removes leading and trailing whitespace and keeps a slice of the input |
| Common.Strip | setup.py:6 | `str.strip()`; its meaning is stated by StripSpec and StripIdempotent |
| Common.StripIdempotent | setup.py:6 | stripping twice is stripping once |
| Common.LastValueSpec | gmab/providers/aws.py:200 | the dict built from pairs holds the last value of each key |
| Common.Get | gmab/commands/configure.py:15 | lookup gives nothing exactly when the key is absent |
| Common.Assign | gmab/commands/configure.py:18 | assignment sets the key, keeps every other key, and appends a new key at the end |

## Left out

- Vendor HTTP and boto3 scaffolding is not modelled: URLs, headers, timeouts, status-code details, JSON decoding and the spawn waiter. Each vendor reply is a value in the adapter's `World`.
- The AWS VPC, gateway, subnet, route-table and security-group setup (`gmab/providers/aws.py:29-177`) is one `SetupNetwork` request with one reply.
- Randomness: the random characters are given as draws. Only the shape of a generated name is proved.
- The clock: one `now` per command. The source reads the clock separately per record and per helper.
- `get_lifetime_left`'s division is over `real`, not IEEE floats.
- File access: SSH-key file reads, configuration writes, `mkdir` and the `setup()` call are left out.
  - A key file is a function from path to content, and `expanduser` is folded into that function and into `keyExists`.
  - `load_config` reads a map from file names to their parsed content.
  - `save_config` is not part of this model. `run_configure` returns what it would save.
- The echo of `print_configs` is left out. Only its masking is modelled.
- Console I/O: click prompts are answer functions in a `Console`, and a confirmation is a boolean. Messages, echo text and the list table's column layout are left out.
- `ConfigNotFoundError` is not part of this model, because `gmab/utils/config_loader.py` does not define it. It is an abstract error kind (`ConfigMissing`).
- Exact exception texts are not modelled, except the prefixes that contracts state.
- Configuration values that are not strings are read through `AsText`/`AsInt` approximations of Python's formatting. An `int()` applied to them is not modelled.
- A provider configuration that is not a JSON object is read as empty. In Python, `configure_provider` would raise `AttributeError` on it.
- `str.strip` and `splitlines` remove only ASCII whitespace. Unicode whitespace and the Unicode digits that `isdigit()` accepts are not modelled.
- Common.ParseInt: skips only the ASCII whitespace `Common.IsSpace` names and reads only ASCII digits. `int()` also skips the separators `\x1c`-`\x1f` and Unicode whitespace, and reads Unicode digits.
- Configure.UpdateNestedDict: returns the merged value. It does not model that Python mutates and returns the same `original` object, or the aliasing that follows.
- Sorting.SortDescSpec: Python's built-in sort is modelled as a stable insertion sort on values, proved ordered, a permutation and stable. The in-place list mutation is not modelled.
- The `[INFO]` fallback messages Linode's spawn prints are left out.
- Hetzner.SpawnSpec: states only the key-file step. The rest of its contract is in `Hetzner.SpawnRecordShape`, `Hetzner.SpawnUsesChosenKey` and `Hetzner.KeyFailureStopsSpawn`.
- Hetzner label restrictions on values are left out, since the source does not check them.
- Cli.TerminateSpec: takes whether a configuration exists as the parameter `configExists`. `config_exists` is not part of this model, because `gmab/utils/config_loader.py` does not define it.
- Cli.TerminateSpec: a provider configuration that does not load is an `Err` value, and the exception text it stands for is not modelled.
- The `spawn` and `list` commands in `gmab/cli.py` are their guard (`Cli.Rejected`) followed by the command. Only the guard and the "Time Left" formatting are modelled.
