// get_config_dir and get_config_file_path: where the configuration files
// live. The environment is a map from variable names to values, the
// platform is the interpreter's platform string and `home` is the user's
// home directory; "~" in "~/.config" is that home.

module Paths {
  import opened Common

  /** A directory or file: a root directory and the segments joined below
      it. */
  datatype Location = Location(root: string, segments: seq<string>)

  function Join(dir: Location, segment: string): Location {
    Location(dir.root, dir.segments + [segment])
  }

  const OVERRIDE_VAR := "GMAB_CONFIG_DIR"
  const XDG_VAR := "XDG_CONFIG_HOME"
  const APPDATA_VAR := "APPDATA"

  predicate UnixLike(platform: string) {
    StartsWith(platform, "linux") || StartsWith(platform, "darwin")
  }

  /** `os.environ['APPDATA']` on Windows when the variable is unset. */
  const APPDATA_MISSING := Error(Failure, "'APPDATA'")

  function ConfigDir(env: map<string, string>, platform: string, home: string): Result<Location> {
    if OVERRIDE_VAR in env then Ok(Location(env[OVERRIDE_VAR], []))
    else if UnixLike(platform) then
      var base := if XDG_VAR in env then Location(env[XDG_VAR], []) else Location(home, [".config"]);
      Ok(Join(base, "gmab"))
    else if platform == "win32" then
      if APPDATA_VAR in env then Ok(Join(Location(env[APPDATA_VAR], []), "gmab")) else Err(APPDATA_MISSING)
    else Ok(Join(Location(home, []), ".gmab"))
  }

  /** The override wins on every platform and whatever else is set; every
      other rule ends in a "gmab" or ".gmab" directory; the only failure is a
      Windows environment without APPDATA. */
  lemma ConfigDirPrecedence(env: map<string, string>, platform: string, home: string,
                            otherPlatform: string, otherHome: string, other: map<string, string>)
    ensures OVERRIDE_VAR in env && OVERRIDE_VAR in other && other[OVERRIDE_VAR] == env[OVERRIDE_VAR] ==>
      ConfigDir(env, platform, home) == ConfigDir(other, otherPlatform, otherHome) == Ok(Location(env[OVERRIDE_VAR], []))
    ensures var r := ConfigDir(env, platform, home);
      OVERRIDE_VAR !in env && r.Ok? ==> |r.value.segments| >= 1 && r.value.segments[|r.value.segments| - 1] in ["gmab", ".gmab"]
    ensures ConfigDir(env, platform, home).Err? <==>
      OVERRIDE_VAR !in env && platform == "win32" && APPDATA_VAR !in env
    ensures OVERRIDE_VAR !in env && UnixLike(platform) ==>
      ConfigDir(env, platform, home) == Ok(if XDG_VAR in env then Location(env[XDG_VAR], ["gmab"]) else Location(home, [".config", "gmab"]))
  {
    assert !StartsWith("win32", "linux") && !StartsWith("win32", "darwin") by {
      assert "win32"[0] != "linux"[0] && "win32"[0] != "darwin"[0];
    }
    assert [] + ["gmab"] == ["gmab"];
    assert [".config"] + ["gmab"] == [".config", "gmab"];
  }

  function ConfigFilePath(env: map<string, string>, platform: string, home: string, filename: string): (r: Result<Location>)
    ensures r.Ok? <==> ConfigDir(env, platform, home).Ok?
    ensures r.Ok? ==> Join(ConfigDir(env, platform, home).value, filename) == r.value
  {
    match ConfigDir(env, platform, home)
    case Err(e) => Err(e)
    case Ok(dir) => Ok(Join(dir, filename))
  }

  /** The two configuration files sit side by side: their paths differ only
      in the last segment, which is the file name. */
  lemma ConfigFilesSideBySide(env: map<string, string>, platform: string, home: string, a: string, b: string)
    requires ConfigDir(env, platform, home).Ok?
    ensures var pa := ConfigFilePath(env, platform, home, a).value;
      var pb := ConfigFilePath(env, platform, home, b).value;
      && pa.root == pb.root
      && |pa.segments| == |pb.segments| >= 1
      && pa.segments[..|pa.segments| - 1] == pb.segments[..|pb.segments| - 1]
      && pa.segments[|pa.segments| - 1] == a && pb.segments[|pb.segments| - 1] == b
  {
    var dir := ConfigDir(env, platform, home).value;
    assert (dir.segments + [a])[..|dir.segments|] == dir.segments;
    assert (dir.segments + [b])[..|dir.segments|] == dir.segments;
  }
}
