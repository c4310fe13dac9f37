/** The configuration file of `internal/redash/client.go`: the default
    template, its create-if-absent step, and the line-by-line parser that
    turns `[default]` / `[profile X]` sections of `key = value` lines into a
    map from profile name to profile settings. */
module RedashConfig {

  import opened Wrappers
  import opened Text
  import opened Files

  /** The three settings of one profile; "" is an unset setting. */
  datatype ProfileConfig = ProfileConfig(redashURL: string, apiKey: string, sqlDir: string)

  const EmptyProfile := ProfileConfig("", "", "")

  const DefaultProfile := "default"

  datatype Config = Config(profiles: map<string, ProfileConfig>)

  /** A comment line of the template. */
  function Comment(text: string): (line: string)
    ensures line != [] && line[0] == '#'
  {
    "# " + text
  }

  /** A setting line of the template with no value. */
  function EmptySetting(key: string): string {
    key + " = "
  }

  /** The `[default]` section of the template, every setting left empty. */
  const DefaultSection: seq<string> := [
    Comment("Default profile (used when no profile is specified)"),
    "[default]",
    Comment("Redash API URL (required)"),
    EmptySetting("redash_url"),
    Comment("Redash API Key (required)"),
    EmptySetting("api_key"),
    Comment("Directory to save SQL files (optional, defaults to current directory)"),
    EmptySetting("sql_dir")
  ]

  /** The commented-out example of a staging profile. */
  const StagingExample: seq<string> := [
    Comment("Example staging profile"),
    Comment("[profile stg]"),
    Comment("redash_url = https://redash-staging.example.com/api"),
    Comment("api_key = your_staging_api_key"),
    Comment("sql_dir = /path/to/staging/sql/dir")
  ]

  /** The commented-out example of a production profile. */
  const ProductionExample: seq<string> := [
    Comment("Example production profile"),
    Comment("[profile prd]"),
    Comment("redash_url = https://redash-production.example.com/api"),
    Comment("api_key = your_production_api_key"),
    Comment("sql_dir = /path/to/production/sql/dir")
  ]

  /** The lines of `DefaultConfigContent`: the default section and the two
      examples, separated by blank lines. */
  const DefaultConfigLines: seq<string> := DefaultSection + TemplateTail

  /** The blank-line-separated examples after the default section. */
  const TemplateTail: seq<string> := [""] + StagingExample + [""] + ProductionExample

  /** The template written to a missing configuration file: each line of
      `DefaultConfigLines` followed by a newline. */
  const DefaultConfigContent: string := JoinLines(DefaultConfigLines)

  // ---- The parser ----

  /** The parser's variables between two lines: the section it is in and
      the profiles read so far. */
  datatype ParseState = ParseState(current: string, profiles: map<string, ProfileConfig>)

  /** Before the first line the parser is in section "default" and has no
      profiles. */
  const Initial := ParseState(DefaultProfile, map[])

  /** Blank, or a comment after trimming. */
  predicate CommentOrBlank(trimmed: string) {
    HasPrefix(trimmed, "#") || trimmed == ""
  }

  /** A blank line, or one whose trimmed form starts with `#`. Such a line
      is never also a section header, so the order of the two tests in the
      loop does not matter. */
  predicate IsSkipped(line: string)
    ensures IsSkipped(line) ==> !IsSectionHeader(line)
  {
    if line != [] && line[0] == '[' then
      TrimSpaceFirst(line);
      CommentOrBlank(TrimSpace(line))
    else CommentOrBlank(TrimSpace(line))
  }

  /** A section header: the raw line starts with `[` and ends with `]`,
      which takes two distinct characters. */
  predicate IsSectionHeader(line: string)
    ensures IsSectionHeader(line) ==> |line| >= 2 && line[0] == '[' && line[|line| - 1] == ']'
  {
    assert HasPrefix(line, "[") ==> line[..1][0] == line[0];
    assert HasSuffix(line, "]") ==> line[|line| - 1..][0] == line[|line| - 1];
    HasPrefix(line, "[") && HasSuffix(line, "]")
  }

  /** The section a header switches to: the trimmed name after
      `profile `, or `default`; None for any other bracketed line. A name
      is always in trimmed form. */
  function SectionName(line: string): (r: Option<string>)
    requires IsSectionHeader(line)
    ensures r.Some? ==> TrimSpace(r.value) == r.value
    ensures r.Some? && r.value != DefaultProfile ==> HasPrefix(TrimSpace(line[1..|line| - 1]), "profile ")
  {
    var name := TrimSpace(line[1..|line| - 1]);
    if HasPrefix(name, "profile ") then
      TrimSpaceTwice(name[8..]);
      Some(TrimSpace(name[8..]))
    else if name == DefaultProfile then
      TrimSpaceTwice(line[1..|line| - 1]);
      Some(name)
    else None
  }

  predicate KnownKey(key: string) {
    key == "redash_url" || key == "api_key" || key == "sql_dir"
  }

  /** The setting `key` names. */
  function Field(pc: ProfileConfig, key: string): string
    requires KnownKey(key)
  {
    if key == "redash_url" then pc.redashURL
    else if key == "api_key" then pc.apiKey
    else pc.sqlDir
  }

  /** `pc` with the setting `key` set to `value`; an unknown key changes
      nothing. */
  function SetField(pc: ProfileConfig, key: string, value: string): (r: ProfileConfig)
    ensures KnownKey(key) ==> Field(r, key) == value
    ensures forall k :: KnownKey(k) && k != key ==> Field(r, k) == Field(pc, k)
  {
    match key
    case "redash_url" => pc.(redashURL := value)
    case "api_key" => pc.(apiKey := value)
    case "sql_dir" => pc.(sqlDir := value)
    case _ => pc
  }

  /** A Go map read: the zero profile for a missing name. */
  function Lookup(profiles: map<string, ProfileConfig>, name: string): ProfileConfig {
    if name in profiles then profiles[name] else EmptyProfile
  }

  /** One turn of the scan loop. Only a header changes the section; no
      profile is ever removed, and only the current section's profile can
      change. */
  function Step(st: ParseState, line: string): (r: ParseState)
    ensures !IsSectionHeader(line) ==> r.current == st.current
    ensures st.profiles.Keys <= r.profiles.Keys
    ensures forall n :: n in st.profiles && n != r.current ==> r.profiles[n] == st.profiles[n]
  {
    if IsSkipped(line) then st
    else if IsSectionHeader(line) then
      match SectionName(line)
      case None => st
      case Some(name) =>
        ParseState(name, if name in st.profiles then st.profiles else st.profiles[name := EmptyProfile])
    else
      match SplitFirst(line, '=')
      case None => st
      case Some((key, value)) => Assign(st, TrimSpace(key), TrimSpace(value))
  }

  /** A key line in the current section: the current profile, created if
      absent, gets `key` set to `value`. */
  function Assign(st: ParseState, key: string, value: string): (r: ParseState)
    ensures r.current == st.current && r.profiles.Keys == st.profiles.Keys + {st.current}
    ensures forall n :: n in st.profiles && n != st.current ==> r.profiles[n] == st.profiles[n]
    ensures KnownKey(key) ==> Field(r.profiles[st.current], key) == value
    ensures forall k :: KnownKey(k) && k != key ==> Field(r.profiles[st.current], k) == Field(Lookup(st.profiles, st.current), k)
  {
    st.(profiles := st.profiles[st.current := SetField(Lookup(st.profiles, st.current), key, value)])
  }

  /** The scan loop run over `lines` from `st`. */
  function ParseFrom(st: ParseState, lines: seq<string>): (r: ParseState)
    ensures st.profiles.Keys <= r.profiles.Keys
    ensures (forall k :: 0 <= k < |lines| ==> !IsSectionHeader(lines[k])) ==> r.current == st.current
    decreases |lines|
  {
    if lines == [] then st else ParseFrom(Step(st, lines[0]), lines[1..])
  }

  /** The map with an empty "default" profile added when it has none. */
  function WithDefault(profiles: map<string, ProfileConfig>): (r: map<string, ProfileConfig>)
    ensures DefaultProfile in r && profiles.Keys <= r.Keys
    ensures r.Keys <= profiles.Keys + {DefaultProfile}
    ensures forall n :: n in profiles ==> r[n] == profiles[n]
  {
    if DefaultProfile in profiles then profiles else profiles[DefaultProfile := EmptyProfile]
  }

  /** The configuration the parser builds from `lines`. */
  function Parsed(lines: seq<string>): (c: Config)
    ensures DefaultProfile in c.profiles
    ensures c.profiles.Keys == ParseFrom(Initial, lines).profiles.Keys + {DefaultProfile}
    ensures forall n :: n in ParseFrom(Initial, lines).profiles ==> c.profiles[n] == ParseFrom(Initial, lines).profiles[n]
  {
    Config(WithDefault(ParseFrom(Initial, lines).profiles))
  }

  /** The parse loop of `LoadConfig`: a current section that starts as
      "default", a map updated line by line, and a "default" profile added
      at the end when the text never created it. */
  method ParseConfig(lines: seq<string>) returns (config: Config)
    ensures config == Parsed(lines)
    ensures DefaultProfile in config.profiles
  {
    var profiles: map<string, ProfileConfig> := map[];
    var current := DefaultProfile;
    var i := 0;
    while i < |lines|
      invariant 0 <= i <= |lines|
      invariant ParseFrom(ParseState(current, profiles), lines[i..]) == ParseFrom(Initial, lines)
    {
      var line := lines[i];
      assert lines[i..][0] == line && lines[i..][1..] == lines[i + 1..];
      if IsSkipped(line) {
        i := i + 1;
        continue;
      }
      if IsSectionHeader(line) {
        var name := SectionName(line);
        if name.Some? {
          current := name.value;
          if current !in profiles {
            profiles := profiles[current := EmptyProfile];
          }
        }
        i := i + 1;
        continue;
      }
      var parts := SplitFirst(line, '=');
      if parts.Some? {
        var key := TrimSpace(parts.value.0);
        var value := TrimSpace(parts.value.1);
        var pc := Lookup(profiles, current);
        pc := SetField(pc, key, value);
        profiles := profiles[current := pc];
      }
      i := i + 1;
    }
    assert lines[i..] == [];
    if DefaultProfile !in profiles {
      profiles := profiles[DefaultProfile := EmptyProfile];
    }
    config := Config(profiles);
  }

  // ---- Properties of the parser ----

  /** Running the loop over two pieces of text in turn is running it over
      their concatenation. */
  lemma {:induction false} ParseFromAppend(st: ParseState, a: seq<string>, b: seq<string>)
    ensures ParseFrom(st, a + b) == ParseFrom(ParseFrom(st, a), b)
    decreases |a|
  {
    if a != [] {
      assert (a + b)[0] == a[0] && (a + b)[1..] == a[1..] + b;
      ParseFromAppend(Step(st, a[0]), a[1..], b);
    } else {
      assert a + b == b;
    }
  }

  /** A blank or comment line can be inserted anywhere without changing
      what is parsed. */
  lemma SkippedLineChangesNothing(a: seq<string>, line: string, b: seq<string>)
    requires IsSkipped(line)
    ensures Parsed(a + [line] + b) == Parsed(a + b)
  {
    ParseFromAppend(Initial, a, [line] + b);
    assert a + [line] + b == a + ([line] + b);
    var st := ParseFrom(Initial, a);
    assert ([line] + b)[0] == line && ([line] + b)[1..] == b;
    assert ParseFrom(st, [line] + b) == ParseFrom(st, b);
    ParseFromAppend(Initial, a, b);
  }

  /** A line starting with `#` is a comment. */
  lemma CommentLine(line: string)
    requires line != [] && line[0] == '#'
    ensures IsSkipped(line)
  {
    TrimSpaceFirst(line);
  }

  lemma {:induction false} ParseSkipped(st: ParseState, lines: seq<string>)
    requires forall k :: 0 <= k < |lines| ==> IsSkipped(lines[k])
    ensures ParseFrom(st, lines) == st
    decreases |lines|
  {
    if lines != [] {
      ParseSkipped(st, lines[1..]);
    }
  }

  /** The line `"[" + inner + "]"` is a header whose text is `inner`. */
  lemma BracketedLine(inner: string)
    ensures IsSectionHeader("[" + inner + "]") && !IsSkipped("[" + inner + "]")
    ensures var line := "[" + inner + "]"; line[1..|line| - 1] == inner
  {
    var line := "[" + inner + "]";
    TrimSpaceFirst(line);
    assert line[1..|line| - 1] == inner;
  }

  lemma {:induction false} TrimLeftTwice(x: string)
    ensures TrimLeft(TrimLeft(x)) == TrimLeft(x)
    decreases |x|
  {
    if x != [] && IsSpace(x[0]) {
      TrimLeftTwice(x[1..]);
    }
  }

  /** `strings.TrimSpace` is idempotent. */
  lemma TrimSpaceTwice(x: string)
    ensures TrimSpace(TrimSpace(x)) == TrimSpace(x)
  {
    TrimCommutes(TrimLeft(x));
    TrimLeftTwice(x);
    TrimRightTwice(TrimLeft(x));
  }

  /** Trimming left then right is trimming right then left. */
  lemma {:induction false} TrimCommutes(x: string)
    ensures TrimLeft(TrimRight(x)) == TrimRight(TrimLeft(x))
  {
    if AllSpace(x) {
      TrimRightAllSpace(x);
      TrimLeftAllSpace(x);
    } else if IsSpace(x[0]) {
      assert !AllSpace(x[1..]) by {
        var k :| 0 <= k < |x| && !IsSpace(x[k]);
        assert x[1..][k - 1] == x[k];
      }
      assert x == [x[0]] + x[1..];
      TrimRightAfterPrefix([x[0]], x[1..]);
      TrimCommutes(x[1..]);
    } else {
      TrimRightKeepsFirst(x);
    }
  }

  lemma {:induction false} TrimRightTwice(x: string)
    ensures TrimRight(TrimRight(x)) == TrimRight(x)
    decreases |x|
  {
    if x != [] && IsSpace(x[|x| - 1]) {
      TrimRightTwice(x[..|x| - 1]);
    }
  }

  /** `[profile X]` switches to the trimmed `X`, creating it empty only if
      it is not yet there. */
  lemma ProfileHeader(st: ParseState, x: string)
    requires !AllSpace(x)
    ensures var next := Step(st, "[profile " + x + "]");
      && next.current == TrimSpace(x)
      && next.profiles == if TrimSpace(x) in st.profiles then st.profiles
                          else st.profiles[TrimSpace(x) := EmptyProfile]
  {
    var inner := "profile " + x;
    BracketedLine(inner);
    assert "[profile " + x + "]" == "[" + inner + "]";
    TrimLeftFirst(inner);
    TrimRightAfterPrefix("profile ", x);
    var name := TrimSpace(inner);
    assert name == "profile " + TrimRight(x);
    assert HasPrefix(name, "profile ") && name[8..] == TrimRight(x);
    TrimCommutes(x);
    TrimRightTwice(TrimLeft(x));
  }

  /** `[default]` switches back to "default", keeping earlier settings. */
  lemma DefaultHeader(st: ParseState)
    ensures var next := Step(st, "[default]");
      && next.current == DefaultProfile
      && next.profiles == if DefaultProfile in st.profiles then st.profiles
                          else st.profiles[DefaultProfile := EmptyProfile]
  {
    BracketedLine("default");
    assert "[default]" == "[" + "default" + "]";
    assert TrimSpace("default") == "default";
    assert !HasPrefix("default", "profile ");
  }

  /** Any other bracketed line is ignored: section and map stay as they are. */
  lemma OtherHeaderIgnored(st: ParseState, inner: string)
    requires TrimSpace(inner) != DefaultProfile && !HasPrefix(TrimSpace(inner), "profile ")
    ensures Step(st, "[" + inner + "]") == st
  {
    BracketedLine(inner);
  }

  /** A line that is neither comment nor header and has no `=` is ignored. */
  lemma LineWithoutEqualsIgnored(st: ParseState, line: string)
    requires !IsSectionHeader(line) && '=' !in line
    ensures Step(st, line) == st
  {
  }

  /** The first non-blank character of `key + rest` is that of `key`. */
  lemma KeyLineShape(key: string, rest: string)
    requires KnownKey(TrimSpace(key))
    ensures !IsSkipped(key + rest) && !IsSectionHeader(key + rest)
  {
    var line := key + rest;
    var tk := TrimSpace(key);
    assert tk[0] == 'r' || tk[0] == 'a' || tk[0] == 's';
    TrimSpaceEmpty(key);
    TrimLeftNotAllSpace(key);
    TrimRightKeepsFirst(TrimLeft(key));
    assert TrimLeft(key)[0] == tk[0];
    TrimLeftAppend(key, rest);
    assert TrimLeft(line)[0] == tk[0];
    TrimRightKeepsFirst(TrimLeft(line));
    assert TrimSpace(line)[0] == tk[0];
    if !IsSpace(key[0]) {
      TrimLeftFirst(key);
    }
    assert line[0] == key[0];
    var t := TrimSpace(line);
    assert !HasPrefix(t, "#") by {
      assert |t| >= 1 ==> t[..1][0] == tk[0];
    }
    assert !HasPrefix(line, "[") by {
      assert line[..1][0] == key[0];
    }
  }

  /** The `=` that follows a key without `=` is where the line is split. */
  lemma SplitAtKey(key: string, value: string)
    requires '=' !in key
    ensures SplitFirst(key + "=" + value, '=') == Some((key, value))
  {
    var line := key + "=" + value;
    assert line[..|key|] == key;
    FirstIndexIs(line, '=', |key|);
    assert line[|key| + 1..] == value;
  }

  /** A line `key=value` whose key is one of the three settings is an
      assignment in the current section. */
  lemma KnownKeyStep(st: ParseState, key: string, value: string)
    requires '=' !in key && KnownKey(TrimSpace(key))
    ensures Step(st, key + "=" + value) == Assign(st, TrimSpace(key), TrimSpace(value))
  {
    KeyLineShape(key, "=" + value);
    assert key + "=" + value == key + ("=" + value);
    SplitAtKey(key, value);
  }

  /** A `key = value` line for one of the three settings sets that setting
      of the current profile to the trimmed value (which may itself hold
      `=`); the other settings, the other profiles and the section stay. */
  lemma KnownKeyAssigns(st: ParseState, key: string, value: string)
    requires '=' !in key && KnownKey(TrimSpace(key))
    ensures var next := Step(st, key + "=" + value);
      && next.current == st.current
      && next.profiles.Keys == st.profiles.Keys + {st.current}
      && (forall n :: n in st.profiles && n != st.current ==> next.profiles[n] == st.profiles[n])
      && Field(next.profiles[st.current], TrimSpace(key)) == TrimSpace(value)
      && (forall k :: KnownKey(k) && k != TrimSpace(key) ==>
            Field(next.profiles[st.current], k) == Field(Lookup(st.profiles, st.current), k))
  {
    KnownKeyStep(st, key, value);
  }

  /** A `key = value` line for any other key changes no setting; it only
      makes sure the current profile is in the map. */
  lemma UnknownKeyIgnored(st: ParseState, key: string, value: string)
    requires '=' !in key && !KnownKey(TrimSpace(key))
    requires !IsSkipped(key + "=" + value) && !IsSectionHeader(key + "=" + value)
    ensures Step(st, key + "=" + value)
         == st.(profiles := st.profiles[st.current := Lookup(st.profiles, st.current)])
  {
    SplitAtKey(key, value);
  }

  /** Of two assignments to the same setting in one section, the later one
      wins. */
  lemma LastAssignmentWins(st: ParseState, k1: string, v1: string, k2: string, v2: string)
    requires '=' !in k1 && '=' !in k2 && KnownKey(TrimSpace(k1)) && TrimSpace(k1) == TrimSpace(k2)
    ensures Step(Step(st, k1 + "=" + v1), k2 + "=" + v2) == Step(st, k2 + "=" + v2)
  {
    var key := TrimSpace(k1);
    KnownKeyStep(st, k1, v1);
    KnownKeyStep(Assign(st, key, TrimSpace(v1)), k2, v2);
    KnownKeyStep(st, k2, v2);
    AssignTwice(st, key, TrimSpace(v1), TrimSpace(v2));
  }

  lemma AssignTwice(st: ParseState, key: string, v1: string, v2: string)
    requires KnownKey(key)
    ensures Assign(Assign(st, key, v1), key, v2) == Assign(st, key, v2)
  {
    var pc := Lookup(st.profiles, st.current);
    assert Lookup(Assign(st, key, v1).profiles, st.current) == SetField(pc, key, v1);
    assert SetField(SetField(pc, key, v1), key, v2) == SetField(pc, key, v2);
  }

  /** Without section headers every setting lands in "default". */
  lemma {:induction false} NoHeaderStaysInDefault(st: ParseState, lines: seq<string>)
    requires st.current == DefaultProfile && st.profiles.Keys <= {DefaultProfile}
    requires forall k :: 0 <= k < |lines| ==> !IsSectionHeader(lines[k])
    ensures ParseFrom(st, lines).current == DefaultProfile
    ensures ParseFrom(st, lines).profiles.Keys <= {DefaultProfile}
    decreases |lines|
  {
    if lines != [] {
      NoHeaderStaysInDefault(Step(st, lines[0]), lines[1..]);
    }
  }

  /** A text without section headers yields the single profile "default". */
  lemma HeaderlessTextIsDefault(lines: seq<string>)
    requires forall k :: 0 <= k < |lines| ==> !IsSectionHeader(lines[k])
    ensures Parsed(lines).profiles.Keys == {DefaultProfile}
  {
    NoHeaderStaysInDefault(Initial, lines);
  }

  /** Lines each of which leaves `st` as it is leave it as it is together. */
  lemma {:induction false} ParseStays(st: ParseState, lines: seq<string>)
    requires forall k :: 0 <= k < |lines| ==> Step(st, lines[k]) == st
    ensures ParseFrom(st, lines) == st
    decreases |lines|
  {
    if lines != [] {
      ParseStays(st, lines[1..]);
    }
  }

  /** The parser's state right after `[default]` in an empty text. */
  const DefaultOnly := ParseState(DefaultProfile, map[DefaultProfile := EmptyProfile])

  /** `key = ` with nothing after it leaves the empty default profile
      as it is. */
  lemma EmptySettingLine(key: string)
    requires KnownKey(key)
    ensures Step(DefaultOnly, EmptySetting(key)) == DefaultOnly
  {
    var t := key + " ";
    assert TrimSpace(t) == key by {
      assert !IsSpace(t[0]) && !IsSpace(key[|key| - 1]);
      TrimLeftFirst(t);
      TrimRightSpaces(key, " ");
    }
    assert TrimSpace(" ") == "";
    assert Assign(DefaultOnly, key, "") == DefaultOnly;
    assert EmptySetting(key) == t + "=" + " ";
    KnownKeyStep(DefaultOnly, t, " ");
  }

  /** The `[default]` section of the template creates "default" and sets
      nothing: each of its settings is assigned the empty string. */
  lemma DefaultSectionParse()
    ensures ParseFrom(Initial, DefaultSection) == DefaultOnly
  {
    var L := DefaultSection;
    assert Step(Initial, L[0]) == Initial by {
      CommentLine(L[0]);
    }
    assert Step(Initial, L[1]) == DefaultOnly by {
      DefaultHeader(Initial);
    }
    var rest := L[2..];
    forall k | 0 <= k < |rest| ensures Step(DefaultOnly, rest[k]) == DefaultOnly {
      if k == 1 {
        EmptySettingLine("redash_url");
      } else if k == 3 {
        EmptySettingLine("api_key");
      } else if k == 5 {
        EmptySettingLine("sql_dir");
      } else {
        CommentLine(rest[k]);
      }
    }
    ParseStays(DefaultOnly, rest);
    assert L == [L[0], L[1]] + rest;
    ParseFromAppend(Initial, [L[0], L[1]], rest);
  }

  /** After the default section every line of the template is blank or a
      comment. */
  lemma TemplateTailSkipped()
    ensures forall k :: 0 <= k < |TemplateTail| ==> IsSkipped(TemplateTail[k])
  {
    var tail := TemplateTail;
    forall k | 0 <= k < |tail| ensures IsSkipped(tail[k]) {
      if k == 0 || k == 6 {
        assert TrimSpace(tail[k]) == "";
      } else {
        CommentLine(tail[k]);
      }
    }
  }

  /** The template parses to one profile, "default", with nothing set. */
  lemma DefaultTemplateParse()
    ensures Parsed(DefaultConfigLines) == Config(map[DefaultProfile := EmptyProfile])
  {
    DefaultSectionParse();
    TemplateTailSkipped();
    ParseSkipped(ParseFrom(Initial, DefaultSection), TemplateTail);
    ParseFromAppend(Initial, DefaultSection, TemplateTail);
  }

  // ---- The file ----

  /** The file system after `EnsureConfigFile`: a missing path is written
      with the template by `file.WriteFile`, which first creates the
      missing parent directory; an existing path, file or directory, is
      left alone. */
  function Ensured(fs: Tree, path: string, answers: WriteAnswers): (r: Tree)
    ensures forall p :: p in fs ==> p in r && r[p] == fs[p]
    ensures forall p :: p in r ==> p in fs || p == path || p == Dir(path)
    ensures path in fs ==> r == fs
    ensures path !in fs && WriteOutcome(fs, path, answers).None? ==> path in r && r[path] == File(DefaultConfigContent, None)
    ensures path !in fs && WriteOutcome(fs, path, answers).Some? && Dir(path) != path ==> path !in r
    ensures path !in fs && Dir(path) !in fs && answers.mkdirError.None? && Dir(path) != path ==> IsDirectory(r, Dir(path))
  {
    if path in fs then fs
    else Written(fs, path, DefaultConfigContent, answers)
  }

  /** Once the file is there, whether it was just written or was there
      before, ensuring it again changes nothing, whatever the operating
      system would answer. */
  lemma EnsureIdempotent(fs: Tree, path: string, a1: WriteAnswers, a2: WriteAnswers)
    requires path in Ensured(fs, path, a1)
    ensures Ensured(Ensured(fs, path, a1), path, a2) == Ensured(fs, path, a1)
  {
  }

  /** The two lines printed once the template has been written. */
  function CreatedNotice(path: string): seq<string> {
    ["Created default config file at " + path, "Please edit it to set your Redash URL and API Key"]
  }

  /** What `EnsureConfigFile` prints: the notice exactly when it wrote the
      template. */
  function Notice(fs: Tree, path: string, answers: WriteAnswers): (lines: seq<string>)
    ensures lines != [] <==> path !in fs && WriteOutcome(fs, path, answers).None?
    ensures lines != [] ==> lines == CreatedNotice(path)
  {
    if path !in fs && WriteOutcome(fs, path, answers).None? then CreatedNotice(path) else []
  }

  /** `EnsureConfigFile`: create the file with the template if it does not
      exist; an existing file, or directory, is left alone. */
  method EnsureConfigFile(disk: Disk, path: string, answers: WriteAnswers)
    returns (err: Option<string>, printed: seq<string>)
    modifies disk
    ensures disk.nodes == Ensured(old(disk.nodes), path, answers)
    ensures err.Some? <==> path !in old(disk.nodes) && WriteOutcome(old(disk.nodes), path, answers).Some?
    ensures err.Some? ==> err.value == "failed to create config file: " + WriteOutcome(old(disk.nodes), path, answers).value
    ensures printed == Notice(old(disk.nodes), path, answers)
  {
    err, printed := None, [];
    if !Exists(disk.nodes, path) {
      var werr := disk.WriteFile(path, DefaultConfigContent, answers);
      if werr.Some? {
        err := Some("failed to create config file: " + werr.value);
      } else {
        printed := CreatedNotice(path);
      }
    }
  }

  /** Why `LoadConfig` failed: the template could not be written, the file
      could not be opened, or reading it failed (a directory). */
  datatype LoadError = CreateFailed(message: string) | OpenFailed(osError: string) | ScanFailed(path: string)

  /** The text of a `LoadConfig` error. */
  function LoadErrorText(e: LoadError): string {
    match e
    case CreateFailed(m) => m
    case OpenFailed(o) => o
    case ScanFailed(p) => "read " + p + ": is a directory"
  }

  /** What `LoadConfig` returns, given the file system before the call. */
  function LoadOutcome(fs: Tree, path: string, answers: WriteAnswers): (r: Result<Config, LoadError>)
    ensures r.Err? && r.error.CreateFailed? <==> path !in fs && WriteOutcome(fs, path, answers).Some?
    ensures path !in fs && WriteOutcome(fs, path, answers).None? ==> r == Ok(Parsed(Lines(DefaultConfigContent)))
    ensures path in fs && fs[path].Directory? ==> r == Err(ScanFailed(path))
    ensures path in fs && fs[path].File? && fs[path].readError.Some? ==> r == Err(OpenFailed(fs[path].readError.value))
    ensures path in fs && fs[path].File? && fs[path].readError.None? ==> r == Ok(Parsed(Lines(fs[path].content)))
  {
    if path !in fs && WriteOutcome(fs, path, answers).Some? then
      Err(CreateFailed("failed to create config file: " + WriteOutcome(fs, path, answers).value))
    else
      match Ensured(fs, path, answers)[path]
      case Directory => Err(ScanFailed(path))
      case File(content, readError) =>
        if readError.Some? then Err(OpenFailed(readError.value)) else Ok(Parsed(Lines(content)))
  }

  /** A configuration that loads always has a "default" profile. */
  lemma LoadedHasDefault(fs: Tree, path: string, answers: WriteAnswers)
    ensures LoadOutcome(fs, path, answers).Ok? ==>
      DefaultProfile in LoadOutcome(fs, path, answers).value.profiles
  {
  }

  /** `LoadConfig`: ensure the file exists, read its lines, parse them; the
      creation notice, if any, is what it prints. */
  method LoadConfig(disk: Disk, path: string, answers: WriteAnswers)
    returns (r: Result<Config, LoadError>, printed: seq<string>)
    modifies disk
    ensures disk.nodes == Ensured(old(disk.nodes), path, answers)
    ensures r == LoadOutcome(old(disk.nodes), path, answers)
    ensures printed == Notice(old(disk.nodes), path, answers)
  {
    var err;
    err, printed := EnsureConfigFile(disk, path, answers);
    if err.Some? {
      return Err(CreateFailed(err.value)), printed;
    }
    var node := disk.nodes[path];
    if node.Directory? {
      return Err(ScanFailed(path)), printed;
    }
    if node.readError.Some? {
      return Err(OpenFailed(node.readError.value)), printed;
    }
    var config := ParseConfig(Lines(node.content));
    r := Ok(config);
  }
}
