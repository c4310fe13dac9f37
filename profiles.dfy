/** Choosing a profile from a loaded configuration, checking that it can
    reach a Redash server, and deciding where its SQL files live
    (`internal/redash/client.go`). */
module Profiles {

  import opened Wrappers
  import opened Text
  import opened Files
  import opened RedashConfig

  /** The profile settings `GetProfileConfig` returns, with the name it
      settled on (which the program also records as the current profile). */
  datatype Resolved = Resolved(profile: ProfileConfig, name: string)

  /** `GetProfileConfig`: the requested name if given, else the value of
      `REDRIP_PROFILE` (passed as `env`), else "default"; a name the
      configuration does not hold falls back to "default". */
  function GetProfileConfig(config: Config, requested: string, env: string): (r: Resolved)
    ensures r.name == DefaultProfile || r.name in config.profiles
    ensures r.profile == Lookup(config.profiles, r.name)
    ensures requested != "" && requested in config.profiles ==> r.name == requested
    ensures requested != "" && requested !in config.profiles ==> r.name == DefaultProfile
    ensures requested == "" && env != "" && env in config.profiles ==> r.name == env
    ensures requested == "" && env != "" && env !in config.profiles ==> r.name == DefaultProfile
    ensures requested == "" && env == "" ==> r.name == DefaultProfile
  {
    var wanted := if requested != "" then requested else if env != "" then env else DefaultProfile;
    if wanted in config.profiles then Resolved(config.profiles[wanted], wanted)
    else Resolved(Lookup(config.profiles, DefaultProfile), DefaultProfile)
  }

  /** The environment is never consulted when a name is given. */
  lemma EnvIgnoredWhenNamed(config: Config, requested: string, env1: string, env2: string)
    requires requested != ""
    ensures GetProfileConfig(config, requested, env1) == GetProfileConfig(config, requested, env2)
  {
  }

  /** The required settings that are empty, `redash_url` before `api_key`. */
  function MissingFields(pc: ProfileConfig): (r: seq<string>)
    ensures "redash_url" in r <==> pc.redashURL == ""
    ensures "api_key" in r <==> pc.apiKey == ""
    ensures r == [] <==> pc.redashURL != "" && pc.apiKey != ""
    ensures |r| <= 2
    ensures |r| == 2 ==> r == ["redash_url", "api_key"]
    ensures forall k :: 0 <= k < |r| ==> r[k] == "redash_url" || r[k] == "api_key"
  {
    (if pc.redashURL == "" then ["redash_url"] else []) + (if pc.apiKey == "" then ["api_key"] else [])
  }

  const MissingRequired := "required configuration values not found: "

  /** `ValidateProfileConfig`: no error when both the URL and the key are
      set, otherwise an error listing the empty ones. */
  function ValidateProfileConfig(pc: ProfileConfig): (r: Option<string>)
    ensures r.None? <==> pc.redashURL != "" && pc.apiKey != ""
    ensures r.Some? ==> r.value == MissingRequired + Join(MissingFields(pc), ", ")
  {
    if pc.redashURL == "" || pc.apiKey == "" then
      Some(MissingRequired + Join(MissingFields(pc), ", "))
    else None
  }

  /** The three messages `ValidateProfileConfig` can give. */
  lemma ValidationMessages(url: string, key: string, dir: string)
    ensures ValidateProfileConfig(ProfileConfig("", "", dir))
         == Some(MissingRequired + "redash_url, api_key")
    ensures url != "" ==>
      ValidateProfileConfig(ProfileConfig(url, "", dir)) == Some(MissingRequired + "api_key")
    ensures key != "" ==>
      ValidateProfileConfig(ProfileConfig("", key, dir)) == Some(MissingRequired + "redash_url")
  {
    assert Join(["redash_url", "api_key"], ", ") == "redash_url" + ", " + "api_key" == "redash_url, api_key";
    assert Join(["api_key"], ", ") == "api_key";
    assert Join(["redash_url"], ", ") == "redash_url";
  }

  /** The SQL-directory decision of `GetProfileSQLDir`: the configured
      directory when it is set and is an existing directory, else ".". */
  function ResolveSQLDir(pc: ProfileConfig, fs: Tree): (dir: string)
    ensures pc.sqlDir != "" && IsDirectory(fs, pc.sqlDir) ==> dir == pc.sqlDir
    ensures pc.sqlDir == "" || !IsDirectory(fs, pc.sqlDir) ==> dir == "."
    ensures dir == "." || IsDirectory(fs, dir)
  {
    if pc.sqlDir == "" then "."
    else if !Exists(fs, pc.sqlDir) || !IsDirectory(fs, pc.sqlDir) then "."
    else pc.sqlDir
  }

  /** `~/.redrip` under the home directory `home`. */
  function ConfigDir(home: string): string {
    JoinPath(home, ".redrip")
  }

  /** `~/.redrip/config.conf` under the home directory `home`. */
  function ConfigPath(home: string): string {
    JoinPath(ConfigDir(home), "config.conf")
  }

  /** On first use the program creates `~/.redrip` along with the file, and
      keeps it even when writing the file then fails; when the directory
      cannot be created, the error names it and nothing changes. */
  lemma ConfigDirCreated(fs: Tree, home: string, answers: WriteAnswers)
    requires ConfigPath(home) !in fs && ConfigDir(home) !in fs
    ensures answers.mkdirError.None? ==> IsDirectory(Ensured(fs, ConfigPath(home), answers), ConfigDir(home))
    ensures answers.mkdirError.Some? ==> Ensured(fs, ConfigPath(home), answers) == fs
    ensures answers.mkdirError.Some? ==>
      LoadOutcome(fs, ConfigPath(home), answers)
        == Err(CreateFailed("failed to create config file: "
                            + ("failed to create directory " + ConfigDir(home) + ": " + answers.mkdirError.value)))
  {
    var name := "config.conf";
    forall k | 0 <= k < |name| ensures name[k] != '/' {
    }
    DirOfJoin(ConfigDir(home), name);
    assert ConfigDir(home) != ConfigPath(home) by {
      assert |ConfigDir(home)| < |ConfigPath(home)|;
    }
  }

  /** What `GetProfileSQLDir` returns, given the file system before the
      call. */
  function SQLDirOutcome(fs: Tree, home: string, requested: string, env: string, answers: WriteAnswers): (r: Result<string, string>)
    ensures r.Ok? ==> r.value == "." || IsDirectory(Ensured(fs, ConfigPath(home), answers), r.value)
    ensures r.Err? <==> LoadOutcome(fs, ConfigPath(home), answers).Err?
  {
    match LoadOutcome(fs, ConfigPath(home), answers)
    case Err(e) => Err("failed to load configuration: " + LoadErrorText(e))
    case Ok(config) =>
      Ok(ResolveSQLDir(GetProfileConfig(config, requested, env).profile, Ensured(fs, ConfigPath(home), answers)))
  }

  /** `GetProfileSQLDir`: load the configuration, pick the profile, decide
      its SQL directory. */
  method GetProfileSQLDir(disk: Disk, home: string, requested: string, env: string, answers: WriteAnswers)
    returns (r: Result<string, string>, printed: seq<string>)
    modifies disk
    ensures disk.nodes == Ensured(old(disk.nodes), ConfigPath(home), answers)
    ensures r == SQLDirOutcome(old(disk.nodes), home, requested, env, answers)
    ensures printed == Notice(old(disk.nodes), ConfigPath(home), answers)
  {
    var loaded;
    loaded, printed := LoadConfig(disk, ConfigPath(home), answers);
    if loaded.Err? {
      return Err("failed to load configuration: " + LoadErrorText(loaded.error)), printed;
    }
    var resolved := GetProfileConfig(loaded.value, requested, env);
    var dir := ResolveSQLDir(resolved.profile, disk.nodes);
    r := Ok(dir);
  }

  /** A client for one Redash server: its API address, its key and the
      profile they came from. */
  datatype Client = Client(baseURL: string, apiKey: string, profile: string)

  /** What `NewClientWithProfile` returns, given the file system before the
      call. */
  function ClientOutcome(fs: Tree, home: string, requested: string, env: string, answers: WriteAnswers): (r: Result<Client, string>)
    ensures r.Ok? ==> r.value.baseURL != "" && r.value.apiKey != ""
    ensures r.Ok? ==> LoadOutcome(fs, ConfigPath(home), answers).Ok?
  {
    match LoadOutcome(fs, ConfigPath(home), answers)
    case Err(e) => Err("failed to load configuration: " + LoadErrorText(e))
    case Ok(config) =>
      var resolved := GetProfileConfig(config, requested, env);
      match ValidateProfileConfig(resolved.profile)
      case Some(msg) => Err("cannot create Redash client for profile '" + resolved.name + "': " + msg)
      case None => Ok(Client(resolved.profile.redashURL, resolved.profile.apiKey, resolved.name))
  }

  /** A configuration whose chosen profile lacks a setting gives an error
      naming that profile and the missing settings; a complete one gives a
      client with exactly that profile's address and key. */
  lemma ClientFromProfile(fs: Tree, home: string, requested: string, env: string, answers: WriteAnswers)
    requires LoadOutcome(fs, ConfigPath(home), answers).Ok?
    ensures var config := LoadOutcome(fs, ConfigPath(home), answers).value;
      var resolved := GetProfileConfig(config, requested, env);
      var r := ClientOutcome(fs, home, requested, env, answers);
      && (r.Ok? <==> resolved.profile.redashURL != "" && resolved.profile.apiKey != "")
      && (r.Ok? ==> r.value == Client(resolved.profile.redashURL, resolved.profile.apiKey, resolved.name))
      && (r.Err? ==> r.error == "cannot create Redash client for profile '" + resolved.name + "': "
                                + MissingRequired + Join(MissingFields(resolved.profile), ", "))
  {
    var config := LoadOutcome(fs, ConfigPath(home), answers).value;
    var resolved := GetProfileConfig(config, requested, env);
    var v := ValidateProfileConfig(resolved.profile);
    if v.Some? {
      assert ClientOutcome(fs, home, requested, env, answers)
        == Err("cannot create Redash client for profile '" + resolved.name + "': " + v.value);
    } else {
      assert ClientOutcome(fs, home, requested, env, answers)
        == Ok(Client(resolved.profile.redashURL, resolved.profile.apiKey, resolved.name));
    }
  }

  /** A command that loads the configuration a second time once the first
      load succeeded (`diff all`, `diff query`) reads the same
      configuration, prints no second notice and changes the disk no
      further. */
  lemma SecondLoadAgrees(fs: Tree, home: string, answers: WriteAnswers, again: WriteAnswers)
    requires LoadOutcome(fs, ConfigPath(home), answers).Ok?
    ensures var after := Ensured(fs, ConfigPath(home), answers);
      && LoadOutcome(after, ConfigPath(home), again) == LoadOutcome(fs, ConfigPath(home), answers)
      && Notice(after, ConfigPath(home), again) == []
      && Ensured(after, ConfigPath(home), again) == after
  {
  }

  /** `NewClientWithProfile`: load the configuration, pick the profile,
      refuse it when a required setting is empty. */
  method NewClientWithProfile(disk: Disk, home: string, requested: string, env: string, answers: WriteAnswers)
    returns (r: Result<Client, string>, printed: seq<string>)
    modifies disk
    ensures disk.nodes == Ensured(old(disk.nodes), ConfigPath(home), answers)
    ensures r == ClientOutcome(old(disk.nodes), home, requested, env, answers)
    ensures printed == Notice(old(disk.nodes), ConfigPath(home), answers)
  {
    var loaded;
    loaded, printed := LoadConfig(disk, ConfigPath(home), answers);
    if loaded.Err? {
      return Err("failed to load configuration: " + LoadErrorText(loaded.error)), printed;
    }
    var resolved := GetProfileConfig(loaded.value, requested, env);
    var invalid := ValidateProfileConfig(resolved.profile);
    if invalid.Some? {
      return Err("cannot create Redash client for profile '" + resolved.name + "': " + invalid.value), printed;
    }
    r := Ok(Client(resolved.profile.redashURL, resolved.profile.apiKey, resolved.name));
  }
}
