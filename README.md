# redrip, modelled in Dafny

redrip is a command-line client for Redash. It keeps the SQL of Redash
queries as local `<id>.sql` files and compares them with the server. This
project models the parts of redrip that decide things:

- **Configuration.** `~/.redrip/config.conf` is an INI-like file of
  `[default]` and `[profile NAME]` sections holding `redash_url`,
  `api_key` and `sql_dir`.
  - The file is created from a template when it is missing.
  - The parse loop reads it line by line.
  - Loading always yields a `default` profile.
- **Profiles.** A profile is chosen in this order: the `--profile` flag,
  then `REDRIP_PROFILE`, then `default`. A name that is not configured
  falls back to `default`. A profile without a URL or an API key is
  refused with a message naming the missing settings. The SQL directory
  is the configured one when it is an existing directory, else `.`.
- **Diff.** One local file is compared with the server's query. The
  result is MATCH or DIFFERENT after trimming white space at both ends,
  and MISSING_IN_REDASH when the server has no such query.
  - `diff all` walks the SQL directory. It compares every `<id>.sql`,
    records failures as ERROR results and counts the other three
    statuses.
  - `diff query ID` compares one file. A missing file or a failed fetch
    is reported inside the printed result.
- **`config list`.** It shows the active profile and then every other
  profile once. The URL is shown as is, the API key only as
  `[REDACTED]` or `[NOT SET]`, and the SQL directory with a note when
  it does not exist.
- **Errors and logging.** The client recognises an HTML answer from the
  server and prints advice for it. The `--quiet`, `--verbose` and
  `--debug` flags choose the log level.

## Modules

- **`Wrappers`**: the `Option` and `Result` types.
- **`Text`**: the Go string functions the program relies on:
  - `strings.TrimSpace`, `HasPrefix`, `HasSuffix`, `Contains` and `Join`;
  - the split at the first `=`;
  - line scanning.
- **`Numbers`**: `strconv.Atoi` and `%d` for a 64-bit `int`.
- **`Files`**: the file system as a map from path to node, `filepath.Dir`,
  and the `Disk` object that the program changes in place with
  `file.WriteFile`.
- **`RedashConfig`**: the template, the parse loop (`ParseConfig`, a
  method proved against the fold `ParseFrom`), `EnsureConfigFile` and
  `LoadConfig`.
- **`Profiles`**: profile choice, validation, the SQL directory and
  client creation.
- **`Diff`**: `CompareQueryWithLocal`.
- **`DiffCommand`**: the `diff all` and `diff query` commands.
- **`ConfigCommand`**: `config list` and `isMissingRequiredFields`.
- **`RedashErrors`**: `IsHTMLResponseError` and the advice it guards.
- **`LogLevel`**: the flag-to-level rule.

The environment is passed as parameters:

- the value of `REDRIP_PROFILE`;
- the home directory;
- what the operating system answers when a missing directory is created
  and when a file is written;
- the server's answers (the query listing and single fetches);
- the directory listing;
- the diff renderer.

Printed output is the sequence of lines written.

Where the code and its description differ, the model follows the code:

- A setting line is split at its first `=`, so `a = b = c` sets `a` to
  `b = c`.
- Any line containing `=` creates the current profile in the map, even
  when its key is unknown.
- `config list --profile X` shows profile `X` itself, and says it does
  not exist when it is not configured, although the active profile has
  fallen back to `default`.
- When `config list` creates the missing file, the error for a failed
  write carries the prefix "failed to create config file: " twice.

## Model

| member | source | states |
|---|---|---|
| RedashConfig.ParseConfig | internal/redash/client.go:100-175 | the parse loop returns exactly the fold of the line step over the lines, starting in section "default" with no profiles, with "default" added when absent; the result always holds "default" |
| RedashConfig.IsSkipped | internal/redash/client.go:109-112 | a blank line or one whose trimmed text starts with `#` is skipped, and such a line is never a section header |
| RedashConfig.IsSectionHeader | internal/redash/client.go:115 | a header starts with `[` and ends with `]`, so it has at least two characters |
| RedashConfig.SectionName | internal/redash/client.go:116-128 | the section a header selects is in trimmed form, and is "default" unless the bracketed text starts with `profile ` |
| RedashConfig.Step | internal/redash/client.go:107-165 | one turn of the loop: only a header changes the section, no profile is removed, and only the current section's profile can change |
| RedashConfig.Assign | internal/redash/client.go:144-164 | a key line creates the current profile when absent, sets a known key to the value, and leaves the other settings, the other profiles and the section as they were |
| RedashConfig.ParseFrom | internal/redash/client.go:107-165 | the loop over several lines never removes a profile, and keeps the section when no line is a header |
| RedashConfig.Parsed | internal/redash/client.go:172-175 | the loaded configuration holds "default", keeps every profile the loop built unchanged, and adds nothing else |
| RedashConfig.ParseFromAppend | internal/redash/client.go:107-165 | parsing `a + b` is parsing `b` from the state `a` leaves, so the loop is a left fold over the lines |
| RedashConfig.SkippedLineChangesNothing | internal/redash/client.go:109-112 | inserting a blank or comment line anywhere leaves the loaded configuration unchanged |
| RedashConfig.CommentLine | internal/redash/client.go:110 | a line that starts with `#` is skipped |
| RedashConfig.ParseSkipped | internal/redash/client.go:109-112 | a run of blank and comment lines leaves the parser's state as it was |
| RedashConfig.BracketedLine | internal/redash/client.go:115-116 | a line `[inner]` is a section header, never skipped, and its name is read from `inner` |
| RedashConfig.ProfileHeader | internal/redash/client.go:115-134 | `[profile x]` makes the trimmed `x` the current section and creates it empty only when it is not already there |
| RedashConfig.DefaultHeader | internal/redash/client.go:119-134 | `[default]` makes "default" current and creates it empty only when absent |
| RedashConfig.OtherHeaderIgnored | internal/redash/client.go:121-127 | any other bracketed line changes neither the section nor the profiles |
| RedashConfig.LineWithoutEqualsIgnored | internal/redash/client.go:140-143 | a non-header line without `=` changes nothing |
| RedashConfig.KeyLineShape | internal/redash/client.go:110-115 | a line starting with a known key is neither skipped nor a section header |
| RedashConfig.SplitAtKey | internal/redash/client.go:140 | a line splits at its first `=` into key and value |
| RedashConfig.SetField | internal/redash/client.go:151-161 | setting one of the three keys changes that setting and leaves the other two |
| RedashConfig.KnownKeyStep | internal/redash/client.go:140-164 | a `key=value` line with a known key assigns the trimmed value to the trimmed key in the current profile |
| RedashConfig.KnownKeyAssigns | internal/redash/client.go:144-164 | after a known-key line the current profile exists and holds the value; other profiles, other settings and the section are unchanged |
| RedashConfig.UnknownKeyIgnored | internal/redash/client.go:148-164 | an unknown key sets nothing but still creates the current profile, empty, when absent |
| RedashConfig.LastAssignmentWins | internal/redash/client.go:151-164 | of two lines setting the same key in a section, only the second counts |
| RedashConfig.AssignTwice | internal/redash/client.go:151-164 | assigning a setting twice is assigning the second value |
| RedashConfig.NoHeaderStaysInDefault | internal/redash/client.go:104-129 | without section headers the parser stays in "default" and creates no other profile |
| RedashConfig.HeaderlessTextIsDefault | internal/redash/client.go:172-175 | a text without headers loads as exactly one profile, "default" |
| RedashConfig.ParseStays | internal/redash/client.go:107-165 | lines that each leave a state fixed leave it fixed together |
| RedashConfig.WithDefault | internal/redash/client.go:172-175 | the loaded map holds "default", keeps every parsed profile unchanged, and adds nothing else |
| RedashConfig.EmptySettingLine | internal/redash/client.go:24-28 | an empty setting line of the template leaves the empty default profile as it is |
| RedashConfig.DefaultSectionParse | internal/redash/client.go:21-28 | the template's default section parses to one empty profile, "default" |
| RedashConfig.TemplateTailSkipped | internal/redash/client.go:29-40 | every line of the two commented examples is skipped |
| RedashConfig.DefaultTemplateParse | internal/redash/client.go:21-41 | the template's lines load as exactly one profile, "default", with all three settings empty |
| RedashConfig.Ensured | internal/redash/client.go:62-75 | ensuring the file keeps every existing path's content, adds at most the file and its parent directory, writes the template only to a missing path and only when the write succeeds, and creates the missing parent directory even when the write then fails |
| RedashConfig.EnsureIdempotent | internal/redash/client.go:63-75 | once the file is there, whether it was there before or has just been written, ensuring it again changes nothing, whatever the system would answer |
| RedashConfig.Notice | internal/redash/client.go:63-74 | the creation notice is printed exactly when the path was missing and writing it succeeded |
| RedashConfig.EnsureConfigFile | internal/redash/client.go:59-78 | the disk after the call; an error exactly when the path was missing and `file.WriteFile` failed, with its text wrapped; the creation notice exactly when it wrote |
| RedashConfig.LoadedHasDefault | internal/redash/client.go:172-175 | a configuration that loads always holds "default" |
| RedashConfig.LoadOutcome | internal/redash/client.go:81-179 | a create error exactly when the path was missing and writing it failed; the template's configuration when it was written; a scan error for a directory; the open error for an unreadable file; otherwise the parse of the file's lines |
| RedashConfig.LoadConfig | internal/redash/client.go:81-179 | the disk after ensuring the file, the creation notice it prints, and the parsed configuration or the error of the create, open or read step |
| Files.DirOfJoin | internal/file/file.go:21 | the directory of a path joined from a directory and a name without '/' is that directory |
| Files.WriteOutcome | internal/file/file.go:18-28 | the write's own answer when the parent exists or is created; the directory error, naming the directory, when creating it fails |
| Files.Written | internal/file/file.go:18-28 | a missing parent is created first and kept even when the write fails; the path holds exactly the data when the write succeeds; no other path changes |
| Files.Disk.WriteFile | internal/file/file.go:18-28 | the error and the new disk are those above |
| Text.LinesOfJoinLines | internal/redash/client.go:106-108 | scanning a text written as newline-terminated lines gives those lines back |
| Profiles.GetProfileConfig | internal/redash/client.go:182-209 | precedence: a non-empty requested name, else the environment value, else "default"; an unknown name gives "default"'s settings and name |
| Profiles.EnvIgnoredWhenNamed | internal/redash/client.go:183-189 | the environment is not consulted when a name is given |
| Profiles.MissingFields | internal/redash/client.go:219-225 | lists exactly the empty required settings, at most two and nothing else, `redash_url` before `api_key` |
| Profiles.ValidateProfileConfig | internal/redash/client.go:212-235 | an error exactly when the URL or the key is empty; the message lists the empty ones joined by ", " |
| Profiles.ValidationMessages | internal/redash/client.go:219-231 | the three possible messages, written out |
| Profiles.ResolveSQLDir | internal/redash/client.go:265-279 | the configured directory when it is set and is an existing directory, "." otherwise |
| Profiles.SQLDirOutcome | internal/redash/client.go:238-279 | fails exactly when loading fails; otherwise gives "." or an existing directory |
| Profiles.ConfigDirCreated | internal/file/file.go:10-28 | on first use `~/.redrip` is created as a directory, and stays when writing the file fails; when it cannot be created nothing changes and loading fails with an error naming it |
| Profiles.GetProfileSQLDir | internal/redash/client.go:238-279 | the disk after loading (the file and `~/.redrip` created when missing), the creation notice printed on first use, and the outcome above |
| Profiles.SecondLoadAgrees | internal/commands/diff.go:29-41 | once a load has succeeded, loading again from the disk it left gives the same configuration, prints no notice and changes nothing |
| Profiles.ClientOutcome | internal/redash/client.go:298-334 | a client only from a loaded configuration, and only with a non-empty URL and key |
| Profiles.ClientFromProfile | internal/redash/client.go:320-334 | a client exactly when the chosen profile is complete, holding that profile's URL, key and name; else the error naming the profile and the missing settings |
| Profiles.NewClientWithProfile | internal/redash/client.go:298-334 | the disk after loading (the file and `~/.redrip` created when missing), the creation notice printed on first use, and the outcome above |
| Diff.StatusText | internal/diff/diff.go:18 | the written status is empty only for the empty status |
| Diff.StatusTextInjective | internal/diff/diff.go:18 | distinct statuses are written differently |
| Diff.Classify | internal/diff/diff.go:63-76 | MATCH exactly when the texts agree after trimming white space at both ends, DIFFERENT otherwise |
| Diff.PaddingNeverChangesStatus | internal/diff/diff.go:64-70 | white space added at either end of either text never changes the status |
| Diff.CompareQueryWithLocal | internal/diff/diff.go:35-79 | error when the local path is not a regular file or cannot be read; MISSING_IN_REDASH without a remote query; otherwise the trimmed comparison; the name is set only from a remote query; a difference text only for DIFFERENT |
| Diff.PaddedFileComparesAlike | internal/diff/diff.go:51-70 | two local files that differ only in white space at their ends compare the same way |
| DiffCommand.EntryID | internal/commands/diff.go:80-91 | an entry is compared exactly when it is not a directory, ends in `.sql`, and its stem reads as an integer, which is its id |
| DiffCommand.SqlFileNameGivesID | internal/commands/diff.go:80-91 | the file written for query `id` is picked up again with that id |
| DiffCommand.LeadingZerosAccepted | internal/commands/diff.go:86-91 | `007.sql` is query 7 |
| DiffCommand.DirectoriesSkipped | internal/commands/diff.go:81-83 | directories are never compared |
| DiffCommand.QueryMap | internal/commands/diff.go:61-64 | every key of the map is the id of the query it maps to |
| DiffCommand.QueryMapLastWins | internal/commands/diff.go:61-64 | the map holds exactly the listed ids, each mapped to the last listed query with that id |
| DiffCommand.BuildQueryMap | internal/commands/diff.go:61-64 | the loop builds exactly that map |
| DiffCommand.ResultFor | internal/commands/diff.go:93-108 | each result has one of the four statuses; ERROR exactly when the file is not a readable regular file, with the missing-file or read-failure text as its message; no message otherwise; for a readable file, MISSING_IN_REDASH exactly when the id is not in the map and otherwise MATCH or DIFFERENT as the trimmed texts agree; a compared result takes the remote query's name; a difference text, from the trimmed texts, only for DIFFERENT |
| DiffCommand.Accepted | internal/commands/diff.go:80-91 | at most one pair per entry, and each pair is a name that is accepted as a file with the id read from it |
| DiffCommand.AcceptedAppend | internal/commands/diff.go:80-91 | the entries are taken in listing order: a listing made of two runs keeps the first run's accepted entries, then the second's |
| DiffCommand.AcceptedOne | internal/commands/diff.go:80-91 | a single entry is kept, as its name and id, exactly when it is accepted |
| DiffCommand.AcceptedComplete | internal/commands/diff.go:80-91 | every accepted entry of the listing is kept, with the id read from its name |
| DiffCommand.CountStatus | internal/commands/diff.go:110-121 | a count is zero exactly when no result has the status, and equals the number of results exactly when all have it |
| DiffCommand.Results | internal/commands/diff.go:80-121 | one result per accepted entry |
| DiffCommand.ResultsFollowAccepted | internal/commands/diff.go:80-121 | the k-th result is the one for the k-th accepted entry, in listing order |
| DiffCommand.CountsAddUp | internal/commands/diff.go:110-121 | the three counters plus the ERROR results add up to the number of results |
| DiffCommand.Tally | internal/commands/diff.go:110-120 | each counter counts exactly the results with its status |
| DiffCommand.DiffAll | internal/commands/diff.go:66-121 | the summary holds the results in order and the counts of MATCH, DIFFERENT and MISSING_IN_REDASH among them, which add up with the errors |
| DiffCommand.DiffAllOutcome | internal/commands/diff.go:26-121 | fails at the first failing step (client, SQL directory, directory check, listing, reading the directory) with that step's message, each stated once the earlier steps have succeeded; otherwise the summary for that profile and directory, with one result per accepted entry and each counter the number of results with its status |
| DiffCommand.DiffAllIn | internal/commands/diff.go:43-121 | with the client and directory loaded, the outcome of the remaining steps is the one above, and a summary's counts add up |
| DiffCommand.DiffAllCommand | internal/commands/diff.go:26-135 | on the disk: the configuration file and `~/.redrip` are created when missing, the creation notice is printed on first use, the client and the SQL directory are loaded from the disk in turn, and the outcome is the one above; a summary's counts add up |
| DiffCommand.DiffQuery | internal/commands/diff.go:142-215 | a bad id is refused with its text; a failed client or SQL directory is refused with its message; otherwise a result is printed, for the parsed id and its `<id>.sql` path, MATCH, DIFFERENT or ERROR with a message; for a fetched query and a readable file it is MATCH or DIFFERENT as the trimmed texts agree, and an unreadable file gives the read error |
| DiffCommand.DiffQueryCommand | internal/commands/diff.go:142-215 | on the disk: a bad id changes nothing and prints nothing; otherwise the configuration file is ensured, the notice printed on first use, and the outcome is the one above for the client and SQL directory loaded from the disk |
| DiffCommand.MissingFileSkipsFetch | internal/commands/diff.go:177-185 | with no local file the server is never asked and the result reports the missing file |
| DiffCommand.FetchFailurePrinted | internal/commands/diff.go:187-198 | a failed fetch becomes a printed ERROR result carrying the server's error |
| DiffCommand.DirectoryNamedLikeFile | internal/commands/diff.go:177-208 | a directory named like the query's file passes the existence check and is then reported as a missing file |
| ConfigCommand.UrlStatus | internal/commands/config.go:120-124 | the URL as it is, or `[NOT SET]` when empty |
| ConfigCommand.KeyStatus | internal/commands/config.go:126-130 | only `[REDACTED]` or `[NOT SET]`, the former exactly when a key is set |
| ConfigCommand.SqlDirStatus | internal/commands/config.go:132-141 | the not-set text, the path, or the path with the does-not-exist note, by existence alone |
| ConfigCommand.SqlDirShownWhenUsed | internal/commands/config.go:132-141 | for a path that is not a regular file, it is shown plainly exactly when it is an existing directory, which is when it is used |
| ConfigCommand.RegularFileShownAsDirectory | internal/commands/config.go:138-141 | a regular file as `sql_dir` is shown without the note although "." is used |
| ConfigCommand.ProfileLines | internal/commands/config.go:116-149 | the three settings lines of a configured profile, or the does-not-exist line |
| ConfigCommand.ActiveProfile | internal/commands/config.go:61-73 | the step-by-step choice is the one `GetProfileConfig` makes, and never empty |
| ConfigCommand.ListProfiles | internal/commands/config.go:96-108 | every profile but the active one is listed exactly once, in the order visited |
| ConfigCommand.Display | internal/commands/config.go:75-109 | the output starts with the configuration file's path and a blank line; with a flag only that profile's lines follow; without one, the active profile's line comes next and the list of available profiles follows |
| ConfigCommand.ShowConfig | internal/commands/config.go:61-109 | the printed lines are those of the display for the chosen order, which lists every other profile once |
| ConfigCommand.FlagShowsOnlyThatProfile | internal/commands/config.go:78-80 | with a flag only that profile is shown, and an unknown one as not existing |
| ConfigCommand.EnvNoteWhenEnvChoseProfile | internal/commands/config.go:82-91 | without a flag the environment note appears exactly when the environment names the active profile |
| ConfigCommand.ApiKeyNeverShown | internal/commands/config.go:126-130 | the output is the same whatever the API keys are, as long as the same ones are set |
| ConfigCommand.ConfigListOutcome | internal/commands/config.go:23-112 | a missing file is created, and a notice is printed with the error exactly when creating its directory or writing it fails |
| ConfigCommand.ConfigList | internal/commands/config.go:23-112 | the disk after the call (the file and its directory created when missing), the outcome above, and every other profile listed once |
| ConfigCommand.MissingRequiredFieldsRecognised | internal/commands/config.go:152-157 | false for no error; true exactly for the errors validation gives |
| RedashErrors.HTMLResponseErrorCases | internal/redash/errors.go:9-14 | false for no error; true exactly when the text contains "HTML instead of JSON", wherever it stands |
| RedashErrors.HTMLBodyErrorRecognised | internal/redash/client.go:400-403 | the client's own HTML-body error is recognised |
| RedashErrors.CommonErrorSuggestions | internal/redash/errors.go:17-26 | advice is printed exactly for HTML errors, headed by the error's text |
| RedashErrors.HTMLBodyErrorGetsAdvice | internal/redash/errors.go:17-26 | an HTML answer from the server always gets the advice |
| LogLevel.SelectLevel | internal/commands/root.go:21-34 | Warn by default; `quiet` gives Error and wins; then `verbose` gives Info; then `debug` gives Debug |
| LogLevel.LevelDeterminesFlags | internal/commands/root.go:54 | with the flags mutually exclusive, the level determines which flag was given |
| LogLevel.WhatEachSettingShows | internal/commands/root.go:22-33 | which records each setting lets through |
| LogLevel.SettingsNested | internal/commands/root.go:22-33 | each more verbose setting shows every record a quieter one shows |
| Numbers.Atoi | internal/commands/diff.go:145 | a value is read exactly when the text after an optional sign is non-empty and all digits and its signed value fits in 64 bits, and it is that signed value |
| Numbers.AtoiPlus | internal/commands/diff.go:145 | a `+` in front of digits does not change what is read |
| Numbers.AtoiMinus | internal/commands/diff.go:145 | a `-` in front of digits reads their negated value, down to the smallest 64-bit value |
| Numbers.AtoiSigned | internal/commands/diff.go:145 | the signed forms of a number's digits read back as that number, and a number above the 64-bit maximum is refused with or without `+` |
| Numbers.AtoiOfItoa | internal/commands/diff.go:168 | reading back the `%d` text of an `int` gives that `int` |
| Numbers.AtoiLeadingZeros | internal/commands/diff.go:86-87 | leading zeros do not change the value read |

## Left out

- HTTP requests, JSON decoding and pagination in `ListQueries` and
  `GetQuery`. Their results are parameters; the diff commands print
  results as JSON, and the model returns the result values instead.
- The home directory lookup: the home directory is a parameter, so the
  "failed to get home directory" errors are not modelled.
- The branches at internal/redash/client.go:253-256 and :313-315. They
  match an error `LoadConfig` never returns, so they cannot run.
- A disk changed by another process between the client load and the
  SQL directory load. The "failed to get SQL directory" branches at
  internal/commands/diff.go:37-41 and :160-164 are stated in
  `DiffAllOutcome` and `DiffQuery`, but the commands never reach them:
  the second load reads the disk the first one left, so after a
  successful client load it cannot fail (`SecondLoadAgrees`).
- The global `CurrentProfile`: the chosen name is returned instead.
- The `bufio.Scanner` token limit and its errors: a file's lines are
  its text split at newlines, and reading a directory fails.
- `filepath.Join` and `filepath.Dir` cleaning: paths are joined as
  `dir + "/" + name`, and a path's directory is what precedes its last
  `/`.
- Written: `os.MkdirAll` also creates missing ancestors above the parent,
  and may leave some of them behind when it fails; the model adds only
  the parent directory. `os.Stat` failing for a reason other than a
  missing path is not modelled.
- The diff text of `diffmatchpatch`: it is the parameter `prettyDiff`.
- Logging calls and the logger package: only the level choice is
  modelled.
- `GetSQLDir` and `NewClient`: they call the profile versions with an
  empty name.
- The advice the diff commands print when listing or fetching fails. It
  is modelled as `CommonErrorSuggestions`, but it is not part of the
  command outcomes.
- The round trip from the template's text to its lines is proved only
  in general (`LinesOfJoinLines`). It is not proved for the template
  itself, because that would need a character-level check of every
  template line. So the first load after creation is proved to be
  "default" alone only at the level of lines (`DefaultTemplateParse`).
- `config list` visits the profiles in an order the model chooses, as
  Go's map iteration does; the order is returned, not fixed.
- The preview `body[:100]` that is logged with an HTML answer, which
  would fail on a shorter body.
