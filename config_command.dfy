/** The `config list` command: which profile is active, and how each
    profile's settings are shown (`internal/commands/config.go`). Printed
    output is modelled as the sequence of lines written. */
module ConfigCommand {

  import opened Wrappers
  import opened Text
  import opened Files
  import opened RedashConfig
  import opened Profiles

  const NotSet := "[NOT SET]"
  const Redacted := "[REDACTED]"
  const DirNotSet := "[NOT SET - using current directory]"
  const DirMissingNote := " [DIRECTORY DOES NOT EXIST - will use current directory]"
  const FromEnvNote := " (from REDRIP_PROFILE environment variable)"

  /** How `redash_url` is shown: as it is, or `[NOT SET]` when empty. */
  function UrlStatus(url: string): (s: string)
    ensures s == (if url == "" then NotSet else url)
  {
    if url != "" then url else NotSet
  }

  /** How `api_key` is shown: only whether it is set, never its value. */
  function KeyStatus(key: string): (s: string)
    ensures s == Redacted || s == NotSet
    ensures s == Redacted <==> key != ""
  {
    if key != "" then Redacted else NotSet
  }

  /** How `sql_dir` is shown; only existence is checked, not whether the
      path is a directory. */
  function SqlDirStatus(dir: string, fs: Tree): (s: string)
    ensures dir == "" ==> s == DirNotSet
    ensures dir != "" && Exists(fs, dir) ==> s == dir
    ensures dir != "" && !Exists(fs, dir) ==> s == dir + DirMissingNote
  {
    if dir == "" then DirNotSet
    else if !Exists(fs, dir) then dir + DirMissingNote
    else dir
  }

  /** For a path that is not a regular file, the directory is shown plainly
      exactly when `GetProfileSQLDir` would use it. */
  lemma SqlDirShownWhenUsed(pc: ProfileConfig, fs: Tree)
    requires !IsFile(fs, pc.sqlDir)
    ensures SqlDirStatus(pc.sqlDir, fs) == pc.sqlDir <==> pc.sqlDir != "" && IsDirectory(fs, pc.sqlDir)
    ensures SqlDirStatus(pc.sqlDir, fs) == pc.sqlDir ==> ResolveSQLDir(pc, fs) == pc.sqlDir
  {
    if pc.sqlDir != "" && !Exists(fs, pc.sqlDir) {
      assert |SqlDirStatus(pc.sqlDir, fs)| > |pc.sqlDir|;
    }
  }

  /** A regular file named as the SQL directory is shown as if it were the
      directory in use, while `GetProfileSQLDir` falls back to ".". */
  lemma RegularFileShownAsDirectory(pc: ProfileConfig, fs: Tree)
    requires pc.sqlDir != "" && pc.sqlDir != "." && IsFile(fs, pc.sqlDir)
    ensures SqlDirStatus(pc.sqlDir, fs) == pc.sqlDir
    ensures ResolveSQLDir(pc, fs) == "." != pc.sqlDir
  {
  }

  /** `showProfileConfig`: the three settings of a profile, or a line saying
      it does not exist. */
  function ProfileLines(config: Config, name: string, fs: Tree): (lines: seq<string>)
    ensures name !in config.profiles ==> lines == ["Profile '" + name + "' does not exist"]
    ensures name in config.profiles ==>
      var pc := config.profiles[name];
      lines == ["  redash_url = " + UrlStatus(pc.redashURL),
                "  api_key = " + KeyStatus(pc.apiKey),
                "  sql_dir = " + SqlDirStatus(pc.sqlDir, fs)]
  {
    if name in config.profiles then
      var pc := config.profiles[name];
      ["  redash_url = " + UrlStatus(pc.redashURL),
       "  api_key = " + KeyStatus(pc.apiKey),
       "  sql_dir = " + SqlDirStatus(pc.sqlDir, fs)]
    else ["Profile '" + name + "' does not exist"]
  }

  /** The listing of one profile under "Available profiles:". */
  function Section(config: Config, fs: Tree, name: string): seq<string> {
    ["[" + name + "]"] + ProfileLines(config, name, fs) + [""]
  }

  /** The listings of the profiles in `names`, in that order. */
  function Sections(config: Config, fs: Tree, names: seq<string>): seq<string>
    decreases |names|
  {
    if names == [] then []
    else Sections(config, fs, names[..|names| - 1]) + Section(config, fs, names[|names| - 1])
  }

  predicate Distinct(names: seq<string>) {
    forall i, j :: 0 <= i < j < |names| ==> names[i] != names[j]
  }

  /** `order` lists every profile but `active`, each once. */
  predicate ListsOthers(order: seq<string>, profiles: set<string>, active: string) {
    && Distinct(order)
    && (forall n :: n in order ==> n in profiles && n != active)
    && (forall n :: n in profiles && n != active ==> n in order)
  }

  /** Lines 62-73: the profile flag, else `REDRIP_PROFILE`, else "default",
      and "default" when the configuration has no such profile; the same
      choice `GetProfileConfig` makes. */
  method ActiveProfile(flag: string, env: string, config: Config) returns (active: string)
    ensures active == GetProfileConfig(config, flag, env).name
    ensures active != ""
  {
    active := flag;
    if active == "" {
      active := env;
      if active == "" {
        active := DefaultProfile;
      }
    }
    if active !in config.profiles {
      active := DefaultProfile;
    }
  }

  /** The loop over the profiles: Go visits a map in no fixed order, so the
      order is chosen here as well, and returned; every profile but the
      active one is shown exactly once. */
  method ListProfiles(config: Config, fs: Tree, active: string) returns (lines: seq<string>, order: seq<string>)
    ensures ListsOthers(order, config.profiles.Keys, active)
    ensures lines == Sections(config, fs, order)
  {
    lines, order := [], [];
    var remaining := config.profiles.Keys;
    while remaining != {}
      invariant remaining <= config.profiles.Keys
      invariant Distinct(order)
      invariant forall n :: n in order <==> n in config.profiles && n !in remaining && n != active
      invariant lines == Sections(config, fs, order)
      decreases |remaining|
    {
      var name :| name in remaining;
      remaining := remaining - {name};
      if name == active {
        continue;
      }
      assert (order + [name])[..|order|] == order;
      lines := lines + Section(config, fs, name);
      order := order + [name];
    }
  }

  /** What `config list` prints once the configuration has loaded, given
      the order in which the other profiles are visited. */
  function Display(config: Config, fs: Tree, path: string, flag: string, env: string, order: seq<string>): (r: seq<string>)
    ensures |r| > 2 && r[..2] == ["Configuration file: " + path, ""]
    ensures flag != "" ==> |r| <= 5 && r[2..] == ProfileLines(config, flag, fs)
    ensures flag == "" ==>
      HasPrefix(r[2], "Active profile: " + GetProfileConfig(config, flag, env).name)
      && "Available profiles:" in r
  {
    ["Configuration file: " + path, ""]
    + if flag != "" then ProfileLines(config, flag, fs)
      else
        var active := GetProfileConfig(config, flag, env).name;
        ["Active profile: " + active + (if env != "" && env == active then FromEnvNote else "")]
        + ProfileLines(config, active, fs) + [""]
        + ["Available profiles:", "------------------"]
        + Sections(config, fs, order)
  }

  /** With the flag, only the named profile is shown, even when it does
      not exist and the active profile has fallen back to "default". */
  lemma FlagShowsOnlyThatProfile(config: Config, fs: Tree, path: string, flag: string, env: string, order: seq<string>)
    requires flag != ""
    ensures flag !in config.profiles ==>
      Display(config, fs, path, flag, env, order)
        == ["Configuration file: " + path, "", "Profile '" + flag + "' does not exist"]
    ensures |Display(config, fs, path, flag, env, order)| <= 5
  {
  }

  /** The environment note appears exactly when no flag is given and the
      environment names the profile shown as active. */
  lemma EnvNoteWhenEnvChoseProfile(config: Config, fs: Tree, path: string, env: string, order: seq<string>)
    requires env != ""
    ensures var lines := Display(config, fs, path, "", env, order);
      |lines| > 2 &&
      (HasSuffix(lines[2], FromEnvNote) <==> env in config.profiles || env == DefaultProfile)
  {
    var active := GetProfileConfig(config, "", env).name;
    var line := Display(config, fs, path, "", env, order)[2];
    var head := "Active profile: " + active;
    if env in config.profiles || env == DefaultProfile {
      assert line == head + FromEnvNote;
      assert line[|line| - |FromEnvNote|..] == FromEnvNote;
    } else {
      assert active == DefaultProfile;
      assert line == "Active profile: default";
    }
  }

  /** Two configurations that differ only in the values of set API keys. */
  predicate SameButKeys(c1: Config, c2: Config) {
    && c1.profiles.Keys == c2.profiles.Keys
    && forall n :: n in c1.profiles ==>
         && c1.profiles[n].redashURL == c2.profiles[n].redashURL
         && c1.profiles[n].sqlDir == c2.profiles[n].sqlDir
         && (c1.profiles[n].apiKey == "" <==> c2.profiles[n].apiKey == "")
  }

  lemma {:induction false} SectionsKeyBlind(c1: Config, c2: Config, fs: Tree, names: seq<string>)
    requires SameButKeys(c1, c2)
    ensures Sections(c1, fs, names) == Sections(c2, fs, names)
    decreases |names|
  {
    if names != [] {
      SectionsKeyBlind(c1, c2, fs, names[..|names| - 1]);
      assert ProfileLines(c1, names[|names| - 1], fs) == ProfileLines(c2, names[|names| - 1], fs);
    }
  }

  /** An API key is never printed: the listing is the same whatever the
      keys are, as long as the same ones are set. */
  lemma ApiKeyNeverShown(c1: Config, c2: Config, fs: Tree, path: string, flag: string, env: string, order: seq<string>)
    requires SameButKeys(c1, c2)
    ensures Display(c1, fs, path, flag, env, order) == Display(c2, fs, path, flag, env, order)
  {
    SectionsKeyBlind(c1, c2, fs, order);
    var a := GetProfileConfig(c1, flag, env).name;
    assert a == GetProfileConfig(c2, flag, env).name;
    assert ProfileLines(c1, a, fs) == ProfileLines(c2, a, fs);
    assert ProfileLines(c1, flag, fs) == ProfileLines(c2, flag, fs);
  }

  /** Lines 61-109: pick the active profile and print either the flagged
      profile or the active one followed by all the others. */
  method ShowConfig(config: Config, fs: Tree, path: string, flag: string, env: string)
    returns (out: seq<string>, order: seq<string>)
    ensures out == Display(config, fs, path, flag, env, order)
    ensures flag == "" ==> ListsOthers(order, config.profiles.Keys, GetProfileConfig(config, flag, env).name)
    ensures flag != "" ==> order == []
  {
    var active := ActiveProfile(flag, env, config);
    out := ["Configuration file: " + path, ""];
    order := [];
    if flag != "" {
      out := out + ProfileLines(config, flag, fs);
    } else {
      var shown: seq<string> := [];
      if active != "" {
        var note := "";
        if env != "" && env == active {
          note := FromEnvNote;
        }
        shown := ["Active profile: " + active + note] + ProfileLines(config, active, fs) + [""];
      }
      shown := shown + ["Available profiles:", "------------------"];
      var lines;
      lines, order := ListProfiles(config, fs, active);
      shown := shown + lines;
      out := out + shown;
    }
  }

  const ConfigMissing := "Config file does not exist. Creating default config file..."

  /** What `config list` prints and returns, given the file system before
      the call and the order the profile loop takes. */
  function ConfigListOutcome(fs: Tree, home: string, flag: string, env: string, answers: WriteAnswers,
                             order: seq<string>): (r: (seq<string>, Option<string>))
    ensures !Exists(fs, ConfigPath(home)) ==> r.0 != [] && r.0[0] == ConfigMissing
    ensures !Exists(fs, ConfigPath(home)) ==> (r.1.Some? <==> WriteOutcome(fs, ConfigPath(home), answers).Some?)
  {
    var path := ConfigPath(home);
    if !Exists(fs, path) then
      match WriteOutcome(fs, path, answers)
      case Some(e) => ([ConfigMissing], Some("failed to create config file: " + ("failed to create config file: " + e)))
      case None =>
        ([ConfigMissing] + CreatedNotice(path)
         + ["Default config file created at " + path, "Please edit it to set your Redash URL and API Key"], None)
    else
      match LoadOutcome(fs, path, answers)
      case Err(e) => ([], Some("failed to load config: " + LoadErrorText(e)))
      case Ok(config) => (Display(config, fs, path, flag, env, order), None)
  }

  /** The `config list` command. A missing file is created and nothing
      else is shown; otherwise the configuration is loaded and shown. */
  method ConfigList(disk: Disk, home: string, flag: string, env: string, answers: WriteAnswers)
    returns (out: seq<string>, err: Option<string>, order: seq<string>)
    modifies disk
    ensures disk.nodes == Ensured(old(disk.nodes), ConfigPath(home), answers)
    ensures (out, err) == ConfigListOutcome(old(disk.nodes), home, flag, env, answers, order)
    ensures Exists(old(disk.nodes), ConfigPath(home)) && LoadOutcome(old(disk.nodes), ConfigPath(home), answers).Ok?
            && flag == "" ==>
      var config := LoadOutcome(old(disk.nodes), ConfigPath(home), answers).value;
      ListsOthers(order, config.profiles.Keys, GetProfileConfig(config, flag, env).name)
  {
    var path := ConfigPath(home);
    order := [];
    if !Exists(disk.nodes, path) {
      out := [ConfigMissing];
      var e, printed := EnsureConfigFile(disk, path, answers);
      out := out + printed;
      if e.Some? {
        err := Some("failed to create config file: " + e.value);
        assert out == [ConfigMissing];
        return;
      }
      out := out + ["Default config file created at " + path, "Please edit it to set your Redash URL and API Key"];
      err := None;
      return;
    }
    var loaded, notice := LoadConfig(disk, path, answers);
    assert notice == [];  // the file exists, so nothing is created
    if loaded.Err? {
      out, err := [], Some("failed to load config: " + LoadErrorText(loaded.error));
      return;
    }
    out, order := ShowConfig(loaded.value, disk.nodes, path, flag, env);
    err := None;
  }

  /** `isMissingRequiredFields`: an error (None for Go's nil) whose text
      contains "required configuration values not found". */
  predicate IsMissingRequiredFields(err: Option<string>) {
    err.Some? && Contains(err.value, "required configuration values not found")
  }

  /** The predicate recognises exactly the errors `ValidateProfileConfig`
      gives, and no error is never such an error. */
  lemma MissingRequiredFieldsRecognised(pc: ProfileConfig)
    ensures !IsMissingRequiredFields(None)
    ensures IsMissingRequiredFields(ValidateProfileConfig(pc)) <==> ValidateProfileConfig(pc).Some?
  {
    var r := ValidateProfileConfig(pc);
    if r.Some? {
      var phrase := "required configuration values not found";
      assert r.value[..|phrase|] == phrase;
      ContainsAt(r.value, phrase, 0);
    }
  }
}
