// load_config: the file name normalisation, the default content written for
// a missing file, and the empty result of a file that cannot be read. The
// file system is a map from file names in the configuration directory to
// what reading them gives.

module ConfigLoader {
  import opened Common
  import Providers
  import Base

  const DEFAULT_GENERAL_CONFIG: Dict := [
    ("ssh_key_path", JStr(Base.DEFAULT_KEY_PATH)),
    ("default_lifetime_minutes", JInt(60)),
    ("default_provider", JStr("linode"))
  ]

  const LINODE_DEFAULTS: Dict := [
    ("api_key", JStr("")),
    ("default_region", JStr("nl-ams")),
    ("default_image", JStr("linode/ubuntu22.04")),
    ("default_type", JStr("g6-nanode-1")),
    ("default_root_pass", JStr(""))
  ]

  const AWS_DEFAULTS: Dict := [
    ("access_key", JStr("")),
    ("secret_key", JStr("")),
    ("default_region", JStr("eu-west-1")),
    ("default_image", JStr("ami-0574da719dca65348")),
    ("default_type", JStr("t3.micro"))
  ]

  const HETZNER_DEFAULTS: Dict := [
    ("api_key", JStr("")),
    ("default_region", JStr("nbg1")),
    ("default_image", JStr("ubuntu-22.04")),
    ("default_type", JStr("cpx11"))
  ]

  const DEFAULT_PROVIDERS_CONFIG: Dict := [
    ("linode", JObj(LINODE_DEFAULTS)),
    ("aws", JObj(AWS_DEFAULTS)),
    ("hetzner", JObj(HETZNER_DEFAULTS))
  ]

  /** The default configuration of each registered provider. */
  function ProviderDefaults(k: Providers.Kind): Dict {
    match k
    case LinodeKind => LINODE_DEFAULTS
    case AwsKind => AWS_DEFAULTS
    case HetznerKind => HETZNER_DEFAULTS
  }

  /** The default provider configuration lists exactly the registered
      providers, in the order linode, aws, hetzner, and the general defaults
      name linode with a 60-minute lifetime. */
  lemma DefaultsMatchRegistry()
    ensures Keys(DEFAULT_PROVIDERS_CONFIG) == ["linode", "aws", "hetzner"]
    ensures forall name :: HasKey(DEFAULT_PROVIDERS_CONFIG, name) <==> Providers.Lookup(name).Some?
    ensures forall k: Providers.Kind :: Get(DEFAULT_PROVIDERS_CONFIG, Providers.NameOf(k)) == Some(JObj(ProviderDefaults(k)))
    ensures Get(DEFAULT_GENERAL_CONFIG, "default_lifetime_minutes") == Some(JInt(60))
    ensures Get(DEFAULT_GENERAL_CONFIG, "default_provider") == Some(JStr("linode"))
    ensures Providers.Lookup("linode") == Some(Providers.LinodeKind)
  {
    var d := DEFAULT_PROVIDERS_CONFIG;
    assert d[0].0 == "linode" && d[1].0 == "aws" && d[2].0 == "hetzner";
    forall name | HasKey(d, name) ensures Providers.Lookup(name).Some? {
      var i :| 0 <= i < |d| && d[i].0 == name;
    }
    forall name | Providers.Lookup(name).Some? ensures HasKey(d, name) {
      var k := Providers.Lookup(name).value;
      match k
      case LinodeKind => assert d[0].0 == name;
      case AwsKind => assert d[1].0 == name;
      case HetznerKind => assert d[2].0 == name;
    }
    forall k: Providers.Kind ensures Get(d, Providers.NameOf(k)) == Some(JObj(ProviderDefaults(k))) {
      assert d[1..][1..] == [d[2]];
    }
    assert DEFAULT_GENERAL_CONFIG[1..][1..] == [DEFAULT_GENERAL_CONFIG[2]];
  }

  // ---------------------------------------------------------------------
  // File names

  const OLD_PREFIX := "gmab/config/"

  /** The name actually read: an old-style "gmab/config/<x>" path keeps its
      last segment, and "general.json" is now "config.json". */
  function ActualFilename(filename: string): string {
    var base := if StartsWith(filename, OLD_PREFIX) then LastSegment(filename, '/') else filename;
    if base == "general.json" then "config.json" else base
  }

  /** Normalising twice is normalising once, every normalised old-style path
      has no '/', and names other than "general.json" that are not old-style
      paths are kept. */
  lemma ActualFilenameSpec(filename: string)
    ensures ActualFilename(ActualFilename(filename)) == ActualFilename(filename)
    ensures StartsWith(filename, OLD_PREFIX) ==> '/' !in ActualFilename(filename)
    ensures !StartsWith(filename, OLD_PREFIX) && filename != "general.json" ==> ActualFilename(filename) == filename
    ensures ActualFilename("general.json") == "config.json"
    ensures ActualFilename(OLD_PREFIX + "general.json") == "config.json"
    ensures ActualFilename(OLD_PREFIX + "providers.json") == "providers.json"
  {
    var f := ActualFilename(filename);
    if StartsWith(filename, OLD_PREFIX) {
      assert '/' !in f;
      assert OLD_PREFIX[4] == '/';
    } else if f != "config.json" {
      assert f == filename;
    }
    assert "config.json"[4] != OLD_PREFIX[4];
    assert !StartsWith("config.json", OLD_PREFIX);
    LastSegmentAfterSeparator(OLD_PREFIX, "general.json", '/');
    LastSegmentAfterSeparator(OLD_PREFIX, "providers.json", '/');
    StartsWithAppend(OLD_PREFIX, "general.json");
    StartsWithAppend(OLD_PREFIX, "providers.json");
  }

  /** The content written for a missing file. */
  function DefaultContent(actualFilename: string): Dict {
    if actualFilename == "config.json" then DEFAULT_GENERAL_CONFIG else DEFAULT_PROVIDERS_CONFIG
  }

  // ---------------------------------------------------------------------
  // Loading

  /** What reading a file gives: a parsed JSON document, or an error. */
  datatype Stored = Parsed(doc: Json) | Unreadable

  /** The result, and the default written when the file was missing. */
  datatype Loaded = Loaded(doc: Json, written: Option<(string, Dict)>)

  function LoadConfig(filename: string, files: map<string, Stored>): (r: Loaded)
    ensures var actual := ActualFilename(filename);
      && (actual !in files ==> r == Loaded(JObj(DefaultContent(actual)), Some((actual, DefaultContent(actual)))))
      && (actual in files ==> r.written.None?)
      && (actual in files && files[actual].Unreadable? ==> r.doc == JObj([]))
      && (actual in files && files[actual].Parsed? ==> r.doc == files[actual].doc)
  {
    var actual := ActualFilename(filename);
    if actual !in files then
      var content := DefaultContent(actual);
      Loaded(JObj(content), Some((actual, content)))
    else
      match files[actual]
      case Parsed(doc) => Loaded(doc, None)
      case Unreadable => Loaded(JObj([]), None)
  }

  /** Loading once leaves a file behind: a second load, after the defaults
      were written, reads them back and writes nothing. */
  lemma LoadTwice(filename: string, files: map<string, Stored>)
    ensures var first := LoadConfig(filename, files);
      var after := if first.written.Some? then files[first.written.value.0 := Parsed(JObj(first.written.value.1))] else files;
      var second := LoadConfig(filename, after);
      second.written.None? && (files == after || second.doc == first.doc)
  {
  }
}
