/** The `diff all` and `diff query` commands (`internal/commands/diff.go`):
    which files of the SQL directory are compared, how the results are
    collected and counted, and the error paths of a single comparison. */
module DiffCommand {

  import opened Wrappers
  import opened Text
  import opened Numbers
  import opened Files
  import opened Diff
  import RedashConfig
  import Profiles

  /** One entry of the SQL directory listing. */
  datatype DirEntry = DirEntry(name: string, isDir: bool)

  /** The query id of an entry: a file named `<id>.sql` whose stem
      `strconv.Atoi` reads; None for every other entry. */
  function EntryID(e: DirEntry): (r: Option<int>)
    ensures r.Some? ==> !e.isDir && HasSuffix(e.name, ".sql")
    ensures r.Some? ==> Atoi(e.name[..|e.name| - 4]) == r
    ensures !e.isDir && HasSuffix(e.name, ".sql") && Atoi(e.name[..|e.name| - 4]).Some? ==> r.Some?
  {
    if e.isDir || !HasSuffix(e.name, ".sql") then None
    else Atoi(e.name[..|e.name| - 4])
  }

  /** The file `diff query` and `diff all` use for query `id` is picked up
      again by the directory filter, with the same id. */
  lemma SqlFileNameGivesID(id: int)
    requires MinInt <= id <= MaxInt
    ensures EntryID(DirEntry(Itoa(id) + ".sql", false)) == Some(id)
  {
    var name := Itoa(id) + ".sql";
    assert name[..|name| - 4] == Itoa(id);
    assert name[|name| - 4..] == ".sql";
    AtoiOfItoa(id);
  }

  /** Leading zeros in a file name are accepted: `007.sql` is query 7. */
  lemma LeadingZerosAccepted(z: nat, n: nat)
    requires n <= MaxInt
    ensures EntryID(DirEntry(Zeros(z) + NatDigits(n) + ".sql", false)) == Some(n)
  {
    var name := Zeros(z) + NatDigits(n) + ".sql";
    assert name[..|name| - 4] == Zeros(z) + NatDigits(n);
    assert name[|name| - 4..] == ".sql";
    AtoiLeadingZeros(z, n);
  }

  /** Directories are never compared, whatever their name. */
  lemma DirectoriesSkipped(name: string)
    ensures EntryID(DirEntry(name, true)) == None
  {
  }

  // ---- The map of remote queries ----

  /** The map from id to query built from the remote listing: a later query
      with the same id replaces an earlier one. */
  function QueryMap(queries: seq<Query>): (m: map<int, Query>)
    ensures forall id :: id in m ==> m[id].id == id
    decreases |queries|
  {
    if queries == [] then map[]
    else
      var last := queries[|queries| - 1];
      QueryMap(queries[..|queries| - 1])[last.id := last]
  }

  /** Every id of the listing is in the map, nothing else is, and each id
      maps to the last query of the listing with that id. */
  lemma {:induction false} QueryMapLastWins(queries: seq<Query>)
    ensures forall id :: id in QueryMap(queries) <==> exists k :: 0 <= k < |queries| && queries[k].id == id
    ensures forall id :: id in QueryMap(queries) ==>
      exists k :: 0 <= k < |queries| && queries[k] == QueryMap(queries)[id]
                  && forall j :: k < j < |queries| ==> queries[j].id != id
    decreases |queries|
  {
    if queries != [] {
      var n := |queries| - 1;
      var prefix := queries[..n];
      var last := queries[n];
      var p := QueryMap(prefix);
      var m := QueryMap(queries);
      assert m == p[last.id := last];
      QueryMapLastWins(prefix);
      forall id | id in m
        ensures exists k :: 0 <= k < |queries| && queries[k] == m[id]
                            && forall j :: k < j < |queries| ==> queries[j].id != id
      {
        if id == last.id {
          assert queries[n] == m[id];
        } else {
          assert id in p;
          var k :| 0 <= k < |prefix| && prefix[k] == p[id] && forall j :: k < j < |prefix| ==> prefix[j].id != id;
          assert queries[k] == m[id];
          assert forall j :: k < j < |queries| ==> queries[j].id != id by {
            forall j | k < j < |queries| ensures queries[j].id != id {
              if j < n {
                assert queries[j] == prefix[j];
              }
            }
          }
        }
      }
      forall id ensures id in m <==> exists k :: 0 <= k < |queries| && queries[k].id == id {
        if id in m && id != last.id {
          assert id in p;
          var k :| 0 <= k < |prefix| && prefix[k].id == id;
          assert queries[k].id == id;
        }
        if exists k :: 0 <= k < |queries| && queries[k].id == id {
          var k :| 0 <= k < |queries| && queries[k].id == id;
          if k < n {
            assert prefix[k].id == id;
            assert id in p;
          }
        }
      }
    }
  }

  /** The loop that fills the map. */
  method BuildQueryMap(queries: seq<Query>) returns (m: map<int, Query>)
    ensures m == QueryMap(queries)
  {
    m := map[];
    var i := 0;
    while i < |queries|
      invariant 0 <= i <= |queries|
      invariant m == QueryMap(queries[..i])
    {
      assert queries[..i + 1][..i] == queries[..i];
      m := m[queries[i].id := queries[i]];
      i := i + 1;
    }
    assert queries[..i] == queries;
  }

  // ---- diff all ----

  /** The result for one accepted entry: the comparison's result, with
      status ERROR and the error text when the comparison failed. */
  function ResultFor(name: string, id: int, sqlDir: string, queryMap: map<int, Query>, fs: Tree,
                     prettyDiff: (string, string) -> string): (r: DiffResult)
    ensures r.queryID == id && r.localPath == JoinPath(sqlDir, name)
    ensures r.status in {Match, Different, MissingInRedash, Error}
    ensures r.status == Error <==> !IsFile(fs, JoinPath(sqlDir, name)) || fs[JoinPath(sqlDir, name)].readError.Some?
    ensures r.status == MissingInRedash ==> id !in queryMap
    ensures r.status in {Match, Different} ==> id in queryMap && r.queryName == queryMap[id].name
    ensures !IsFile(fs, JoinPath(sqlDir, name)) ==>
      r.errorMessage == "local SQL file does not exist: " + JoinPath(sqlDir, name)
    ensures IsFile(fs, JoinPath(sqlDir, name)) && fs[JoinPath(sqlDir, name)].readError.Some? ==>
      r.errorMessage == "failed to read local file: " + fs[JoinPath(sqlDir, name)].readError.value
    ensures r.status != Error ==> r.errorMessage == ""
    ensures IsFile(fs, JoinPath(sqlDir, name)) && fs[JoinPath(sqlDir, name)].readError.None? ==>
      r.status == if id in queryMap then Classify(fs[JoinPath(sqlDir, name)].content, queryMap[id].query)
                  else MissingInRedash
    ensures r.status == Different ==>
      IsFile(fs, JoinPath(sqlDir, name)) && id in queryMap
      && r.differences == prettyDiff(TrimSpace(fs[JoinPath(sqlDir, name)].content), TrimSpace(queryMap[id].query))
    ensures r.status != Different ==> r.differences == ""
  {
    var remote := if id in queryMap then Some(queryMap[id]) else None;
    var c := CompareQueryWithLocal(id, remote, JoinPath(sqlDir, name), fs, prettyDiff);
    if c.error.Some? then c.result.(status := Error, errorMessage := c.error.value) else c.result
  }

  /** The entries that are compared, as (name, id), in listing order. */
  function Accepted(entries: seq<DirEntry>): (r: seq<(string, int)>)
    ensures |r| <= |entries|
    ensures forall k :: 0 <= k < |r| ==> EntryID(DirEntry(r[k].0, false)) == Some(r[k].1)
    decreases |entries|
  {
    if entries == [] then []
    else
      var prev := Accepted(entries[..|entries| - 1]);
      var e := entries[|entries| - 1];
      match EntryID(e)
      case None => prev
      case Some(id) => prev + [(e.name, id)]
  }

  /** Listing two runs of entries one after the other accepts the entries
      of each run, in that order. */
  lemma {:induction false} AcceptedAppend(a: seq<DirEntry>, b: seq<DirEntry>)
    ensures Accepted(a + b) == Accepted(a) + Accepted(b)
    decreases |b|
  {
    if b == [] {
      assert a + b == a;
    } else {
      var b' := b[..|b| - 1];
      assert (a + b)[..|a + b| - 1] == a + b';
      assert (a + b)[|a + b| - 1] == b[|b| - 1];
      AcceptedAppend(a, b');
    }
  }

  /** A single entry is kept, with its id, exactly when it is accepted. */
  lemma AcceptedOne(e: DirEntry)
    ensures Accepted([e]) == if EntryID(e).Some? then [(e.name, EntryID(e).value)] else []
  {
    assert [e][..0] == [];
  }

  /** Every accepted entry of the listing is kept, with its id. */
  lemma {:induction false} AcceptedComplete(entries: seq<DirEntry>, j: int)
    requires 0 <= j < |entries| && EntryID(entries[j]).Some?
    ensures (entries[j].name, EntryID(entries[j]).value) in Accepted(entries)
    decreases |entries|
  {
    var last := |entries| - 1;
    if j < last {
      var prev := entries[..last];
      assert prev[j] == entries[j];
      AcceptedComplete(prev, j);
      assert Accepted(prev) <= Accepted(entries);
    }
  }

  /** The results of `diff all`: one per accepted entry, in listing order,
      each for that entry's file and id, none without a status. */
  function Results(entries: seq<DirEntry>, sqlDir: string, queryMap: map<int, Query>, fs: Tree,
                   prettyDiff: (string, string) -> string): (rs: seq<DiffResult>)
    ensures |rs| == |Accepted(entries)|
    decreases |entries|
  {
    if entries == [] then []
    else
      var prev := Results(entries[..|entries| - 1], sqlDir, queryMap, fs, prettyDiff);
      var e := entries[|entries| - 1];
      match EntryID(e)
      case None => prev
      case Some(id) => prev + [ResultFor(e.name, id, sqlDir, queryMap, fs, prettyDiff)]
  }

  /** The k-th result is the one for the k-th accepted entry. */
  lemma {:induction false} ResultsFollowAccepted(entries: seq<DirEntry>, sqlDir: string, queryMap: map<int, Query>,
                                                 fs: Tree, prettyDiff: (string, string) -> string)
    ensures var rs := Results(entries, sqlDir, queryMap, fs, prettyDiff);
      forall k :: 0 <= k < |rs| ==>
        rs[k] == ResultFor(Accepted(entries)[k].0, Accepted(entries)[k].1, sqlDir, queryMap, fs, prettyDiff)
    decreases |entries|
  {
    if entries != [] {
      ResultsFollowAccepted(entries[..|entries| - 1], sqlDir, queryMap, fs, prettyDiff);
    }
  }

  /** The number of results with status `s`. */
  function CountStatus(rs: seq<DiffResult>, s: Status): (n: nat)
    ensures n <= |rs|
    ensures n == 0 <==> forall k :: 0 <= k < |rs| ==> rs[k].status != s
    ensures n == |rs| <==> forall k :: 0 <= k < |rs| ==> rs[k].status == s
    decreases |rs|
  {
    if rs == [] then 0
    else CountStatus(rs[..|rs| - 1], s) + (if rs[|rs| - 1].status == s then 1 else 0)
  }

  /** Every result has exactly one of the four statuses, so the three
      counters and the errors add up to the number of results. */
  lemma {:induction false} CountsAddUp(rs: seq<DiffResult>)
    requires forall k :: 0 <= k < |rs| ==> rs[k].status in {Match, Different, MissingInRedash, Error}
    ensures CountStatus(rs, Match) + CountStatus(rs, Different) + CountStatus(rs, MissingInRedash)
            + CountStatus(rs, Error) == |rs|
    decreases |rs|
  {
    if rs != [] {
      CountsAddUp(rs[..|rs| - 1]);
    }
  }

  /** Listing one more entry adds its result, if it is accepted. */
  lemma ResultsStep(entries: seq<DirEntry>, i: nat, sqlDir: string, queryMap: map<int, Query>, fs: Tree,
                    prettyDiff: (string, string) -> string)
    requires i < |entries|
    ensures EntryID(entries[i]).None? ==>
      Results(entries[..i + 1], sqlDir, queryMap, fs, prettyDiff) == Results(entries[..i], sqlDir, queryMap, fs, prettyDiff)
    ensures EntryID(entries[i]).Some? ==>
      Results(entries[..i + 1], sqlDir, queryMap, fs, prettyDiff)
        == Results(entries[..i], sqlDir, queryMap, fs, prettyDiff)
           + [ResultFor(entries[i].name, EntryID(entries[i]).value, sqlDir, queryMap, fs, prettyDiff)]
  {
    assert entries[..i + 1][..i] == entries[..i];
  }

  /** Counting over one more result. */
  lemma CountAppend(rs: seq<DiffResult>, r: DiffResult, s: Status)
    ensures CountStatus(rs + [r], s) == CountStatus(rs, s) + (if r.status == s then 1 else 0)
  {
    assert (rs + [r])[..|rs|] == rs;
  }

  /** The counter update for one result: MATCH, DIFFERENT and
      MISSING_IN_REDASH each bump their own counter, anything else none. */
  method Tally(results: seq<DiffResult>, result: DiffResult, matches: nat, differences: nat, missing: nat)
    returns (matches': nat, differences': nat, missing': nat)
    requires matches == CountStatus(results, Match)
    requires differences == CountStatus(results, Different)
    requires missing == CountStatus(results, MissingInRedash)
    ensures matches' == CountStatus(results + [result], Match)
    ensures differences' == CountStatus(results + [result], Different)
    ensures missing' == CountStatus(results + [result], MissingInRedash)
  {
    CountAppend(results, result, Match);
    CountAppend(results, result, Different);
    CountAppend(results, result, MissingInRedash);
    matches', differences', missing' := matches, differences, missing;
    match result.status {
      case Match => matches' := matches + 1;
      case Different => differences' := differences + 1;
      case MissingInRedash => missing' := missing + 1;
      case _ =>
    }
  }

  /** The loop of `diff all`: compare every accepted entry, record an
      ERROR result when the comparison fails and go on, and count each
      MATCH, DIFFERENT and MISSING_IN_REDASH result once. */
  method DiffAll(profile: string, sqlDir: string, entries: seq<DirEntry>, queryMap: map<int, Query>, fs: Tree,
                 prettyDiff: (string, string) -> string) returns (summary: Summary)
    ensures var rs := Results(entries, sqlDir, queryMap, fs, prettyDiff);
      summary == Summary(profile, sqlDir, CountStatus(rs, Match), CountStatus(rs, Different),
                         CountStatus(rs, MissingInRedash), rs)
    ensures summary.matches + summary.differences + summary.missingInRedash
            + CountStatus(summary.results, Error) == |summary.results|
  {
    var matches, differences, missing := 0, 0, 0;
    var results: seq<DiffResult> := [];
    var i := 0;
    while i < |entries|
      invariant 0 <= i <= |entries|
      invariant results == Results(entries[..i], sqlDir, queryMap, fs, prettyDiff)
      invariant matches == CountStatus(results, Match)
      invariant differences == CountStatus(results, Different)
      invariant missing == CountStatus(results, MissingInRedash)
    {
      var entry := entries[i];
      ResultsStep(entries, i, sqlDir, queryMap, fs, prettyDiff);
      var id := EntryID(entry);
      if id.None? {
        i := i + 1;
        continue;
      }
      var result := ResultFor(entry.name, id.value, sqlDir, queryMap, fs, prettyDiff);
      matches, differences, missing := Tally(results, result, matches, differences, missing);
      results := results + [result];
      i := i + 1;
    }
    assert entries[..i] == entries;
    summary := Summary(profile, sqlDir, matches, differences, missing, results);
    ResultsFollowAccepted(entries, sqlDir, queryMap, fs, prettyDiff);
    CountsAddUp(results);
  }

  /** What `diff all` does, given the client and SQL directory the profile
      yields, the remote listing and the directory listing: fail at the
      first step that fails, else the summary of the loop. */
  function DiffAllOutcome(client: Result<Profiles.Client, string>, sqlDir: Result<string, string>, fs: Tree,
                          listing: Result<seq<Query>, string>, entries: Result<seq<DirEntry>, string>,
                          prettyDiff: (string, string) -> string): (r: Result<Summary, string>)
    ensures client.Err? ==> r == Err("failed to initialize Redash client: " + client.error)
    ensures r.Ok? ==> client.Ok? && sqlDir.Ok? && IsDirectory(fs, sqlDir.value)
                      && listing.Ok? && entries.Ok?
    ensures r.Ok? ==> r.value.profile == client.value.profile && r.value.sqlDirectory == sqlDir.value
    ensures client.Ok? && sqlDir.Err? ==> r == Err("failed to get SQL directory: " + sqlDir.error)
    ensures client.Ok? && sqlDir.Ok? && !IsDirectory(fs, sqlDir.value) ==>
      r == Err("SQL directory does not exist: " + sqlDir.value)
    ensures client.Ok? && sqlDir.Ok? && IsDirectory(fs, sqlDir.value) && listing.Err? ==> r == Err(listing.error)
    ensures client.Ok? && sqlDir.Ok? && IsDirectory(fs, sqlDir.value) && listing.Ok? && entries.Err? ==>
      r == Err("failed to read directory " + sqlDir.value + ": " + entries.error)
    ensures r.Ok? ==> |r.value.results| == |Accepted(entries.value)|
                      && r.value.matches == CountStatus(r.value.results, Match)
                      && r.value.differences == CountStatus(r.value.results, Different)
                      && r.value.missingInRedash == CountStatus(r.value.results, MissingInRedash)
  {
    if client.Err? then Err("failed to initialize Redash client: " + client.error)
    else if sqlDir.Err? then Err("failed to get SQL directory: " + sqlDir.error)
    else if !Exists(fs, sqlDir.value) || !IsDirectory(fs, sqlDir.value) then
      Err("SQL directory does not exist: " + sqlDir.value)
    else if listing.Err? then Err(listing.error)
    else if entries.Err? then Err("failed to read directory " + sqlDir.value + ": " + entries.error)
    else
      var rs := Results(entries.value, sqlDir.value, QueryMap(listing.value), fs, prettyDiff);
      Ok(Summary(client.value.profile, sqlDir.value, CountStatus(rs, Match), CountStatus(rs, Different),
                 CountStatus(rs, MissingInRedash), rs))
  }

  /** The `diff all` command: the client and the SQL directory come from
      loading the configuration twice, which creates the file on first
      use; the directory is then read from the disk as it stands. */
  method DiffAllCommand(disk: Disk, home: string, profile: string, env: string, answers: WriteAnswers,
                        listing: Result<seq<Query>, string>, entries: Result<seq<DirEntry>, string>,
                        prettyDiff: (string, string) -> string) returns (r: Result<Summary, string>, printed: seq<string>)
    modifies disk
    ensures disk.nodes == RedashConfig.Ensured(old(disk.nodes), Profiles.ConfigPath(home), answers)
    ensures printed == RedashConfig.Notice(old(disk.nodes), Profiles.ConfigPath(home), answers)
    ensures r == DiffAllOutcome(Profiles.ClientOutcome(old(disk.nodes), home, profile, env, answers),
                                Profiles.SQLDirOutcome(disk.nodes, home, profile, env, answers),
                                disk.nodes, listing, entries, prettyDiff)
    ensures r.Ok? ==> r.value.matches + r.value.differences + r.value.missingInRedash
                      + CountStatus(r.value.results, Error) == |r.value.results|
  {
    ghost var before := disk.nodes;
    var client;
    client, printed := Profiles.NewClientWithProfile(disk, home, profile, env, answers);
    if client.Err? {
      return Err("failed to initialize Redash client: " + client.error), printed;
    }
    Profiles.SecondLoadAgrees(before, home, answers, answers);
    var sqlDir, again := Profiles.GetProfileSQLDir(disk, home, profile, env, answers);
    printed := printed + again;
    if sqlDir.Err? {
      // The second load reads what the first one read, which succeeded.
      assert false;
    }
    r := DiffAllIn(client.value, sqlDir.value, disk.nodes, listing, entries, prettyDiff);
  }

  /** The rest of `diff all` once the client and the SQL directory are
      known: check the directory, map the listing, run the loop. */
  method DiffAllIn(client: Profiles.Client, dir: string, fs: Tree,
                   listing: Result<seq<Query>, string>, entries: Result<seq<DirEntry>, string>,
                   prettyDiff: (string, string) -> string) returns (r: Result<Summary, string>)
    ensures r == DiffAllOutcome(Ok(client), Ok(dir), fs, listing, entries, prettyDiff)
    ensures r.Ok? ==> r.value.matches + r.value.differences + r.value.missingInRedash
                      + CountStatus(r.value.results, Error) == |r.value.results|
  {
    if !Exists(fs, dir) || !IsDirectory(fs, dir) {
      return Err("SQL directory does not exist: " + dir);
    }
    if listing.Err? {
      return Err(listing.error);
    }
    var queryMap := BuildQueryMap(listing.value);
    if entries.Err? {
      return Err("failed to read directory " + dir + ": " + entries.error);
    }
    var summary := DiffAll(client.profile, dir, entries.value, queryMap, fs, prettyDiff);
    r := Ok(summary);
  }

  // ---- diff query ----

  /** What `diff query` ends with: an error returned to the caller, or a
      result printed (the command then succeeds). */
  datatype QueryOutcome = Failed(message: string) | Printed(result: DiffResult)

  /** The file `diff query` compares for query `id`. */
  function QueryFilePath(sqlDir: string, id: int): string {
    JoinPath(sqlDir, Itoa(id) + ".sql")
  }

  /** `diff query <arg>`: the id must be an integer; a missing local file
      or a failed fetch is reported in the printed result; `fetch` stands
      for the server's answer to `GetQuery`. */
  function DiffQuery(arg: string, client: Result<Profiles.Client, string>, sqlDir: Result<string, string>,
                     fs: Tree, fetch: int -> Result<Query, string>,
                     prettyDiff: (string, string) -> string): (r: QueryOutcome)
    ensures Atoi(arg).None? ==> r == Failed("invalid query ID: " + arg)
    ensures r.Printed? ==> Atoi(arg).Some? && client.Ok? && sqlDir.Ok?
    ensures r.Printed? ==> r.result.queryID == Atoi(arg).value
                           && r.result.localPath == QueryFilePath(sqlDir.value, Atoi(arg).value)
    ensures r.Printed? ==> r.result.status in {Match, Different, Error}
    ensures r.Printed? && r.result.status == Error ==> r.result.errorMessage != ""
    ensures Atoi(arg).Some? && client.Err? ==> r == Failed("failed to initialize Redash client: " + client.error)
    ensures Atoi(arg).Some? && client.Ok? && sqlDir.Err? ==> r == Failed("failed to get SQL directory: " + sqlDir.error)
    ensures Atoi(arg).Some? && client.Ok? && sqlDir.Ok? ==> r.Printed?
    ensures Atoi(arg).Some? && client.Ok? && sqlDir.Ok? ==>
      var p := QueryFilePath(sqlDir.value, Atoi(arg).value);
      IsFile(fs, p) && fetch(Atoi(arg).value).Ok? ==>
        var c := CompareQueryWithLocal(Atoi(arg).value, Some(fetch(Atoi(arg).value).value), p, fs, prettyDiff);
        && (fs[p].readError.None? ==>
              r == Printed(c.result) && r.result.status == Classify(fs[p].content, fetch(Atoi(arg).value).value.query))
        && (fs[p].readError.Some? ==>
              r == Printed(c.result.(status := Error, errorMessage := "failed to read local file: " + fs[p].readError.value)))
  {
    match Atoi(arg)
    case None => Failed("invalid query ID: " + arg)
    case Some(id) =>
      if client.Err? then Failed("failed to initialize Redash client: " + client.error)
      else if sqlDir.Err? then Failed("failed to get SQL directory: " + sqlDir.error)
      else
        var localPath := QueryFilePath(sqlDir.value, id);
        var empty := DiffResult(id, "", NoStatus, "", localPath, "");
        if !Exists(fs, localPath) then
          Printed(empty.(status := Error, errorMessage := "local SQL file does not exist: " + localPath))
        else
          match fetch(id)
          case Err(e) =>
            Printed(empty.(status := Error, errorMessage := "failed to get query from Redash: " + e))
          case Ok(q) =>
            var c := CompareQueryWithLocal(id, Some(q), localPath, fs, prettyDiff);
            if c.error.Some? then Printed(c.result.(status := Error, errorMessage := c.error.value))
            else Printed(c.result)
  }

  /** The `diff query` command: the id is checked first; then the client
      and the SQL directory come from loading the configuration twice, as
      in `diff all`, and the file is looked up on the disk as it stands. */
  method DiffQueryCommand(disk: Disk, home: string, profile: string, env: string, answers: WriteAnswers,
                          arg: string, fetch: int -> Result<Query, string>,
                          prettyDiff: (string, string) -> string) returns (r: QueryOutcome, printed: seq<string>)
    modifies disk
    ensures Atoi(arg).None? ==> disk.nodes == old(disk.nodes) && printed == []
    ensures Atoi(arg).Some? ==>
      && disk.nodes == RedashConfig.Ensured(old(disk.nodes), Profiles.ConfigPath(home), answers)
      && printed == RedashConfig.Notice(old(disk.nodes), Profiles.ConfigPath(home), answers)
    ensures r == DiffQuery(arg, Profiles.ClientOutcome(old(disk.nodes), home, profile, env, answers),
                           Profiles.SQLDirOutcome(disk.nodes, home, profile, env, answers),
                           disk.nodes, fetch, prettyDiff)
  {
    ghost var before := disk.nodes;
    printed := [];
    var id := Atoi(arg);
    if id.None? {
      return Failed("invalid query ID: " + arg), printed;
    }
    var client;
    client, printed := Profiles.NewClientWithProfile(disk, home, profile, env, answers);
    if client.Err? {
      return Failed("failed to initialize Redash client: " + client.error), printed;
    }
    Profiles.SecondLoadAgrees(before, home, answers, answers);
    var sqlDir, again := Profiles.GetProfileSQLDir(disk, home, profile, env, answers);
    printed := printed + again;
    if sqlDir.Err? {
      // The second load reads what the first one read, which succeeded.
      assert false;
    }
    var localPath := QueryFilePath(sqlDir.value, id.value);
    var result := DiffResult(id.value, "", NoStatus, "", localPath, "");
    if !Exists(disk.nodes, localPath) {
      return Printed(result.(status := Error, errorMessage := "local SQL file does not exist: " + localPath)), printed;
    }
    var remote := fetch(id.value);
    if remote.Err? {
      return Printed(result.(status := Error, errorMessage := "failed to get query from Redash: " + remote.error)), printed;
    }
    var c := CompareQueryWithLocal(id.value, Some(remote.value), localPath, disk.nodes, prettyDiff);
    result := c.result;
    if c.error.Some? {
      result := result.(status := Error, errorMessage := c.error.value);
    }
    r := Printed(result);
  }

  /** When the local file is missing the server is never asked: the outcome
      is the same whatever it would answer. */
  lemma MissingFileSkipsFetch(arg: string, client: Result<Profiles.Client, string>, sqlDir: Result<string, string>,
                              fs: Tree, fetch1: int -> Result<Query, string>, fetch2: int -> Result<Query, string>,
                              prettyDiff: (string, string) -> string)
    requires Atoi(arg).Some? && client.Ok? && sqlDir.Ok?
    requires !Exists(fs, QueryFilePath(sqlDir.value, Atoi(arg).value))
    ensures DiffQuery(arg, client, sqlDir, fs, fetch1, prettyDiff) == DiffQuery(arg, client, sqlDir, fs, fetch2, prettyDiff)
    ensures DiffQuery(arg, client, sqlDir, fs, fetch1, prettyDiff).result.errorMessage
            == "local SQL file does not exist: " + QueryFilePath(sqlDir.value, Atoi(arg).value)
  {
  }

  /** A failed fetch is printed as an ERROR result that carries the
      server's error; the command itself succeeds. */
  lemma FetchFailurePrinted(arg: string, client: Result<Profiles.Client, string>, sqlDir: Result<string, string>,
                            fs: Tree, fetch: int -> Result<Query, string>, prettyDiff: (string, string) -> string)
    requires Atoi(arg).Some? && client.Ok? && sqlDir.Ok?
    requires Exists(fs, QueryFilePath(sqlDir.value, Atoi(arg).value))
    requires fetch(Atoi(arg).value).Err?
    ensures var r := DiffQuery(arg, client, sqlDir, fs, fetch, prettyDiff);
      r.Printed? && r.result.status == Error
      && r.result.errorMessage == "failed to get query from Redash: " + fetch(Atoi(arg).value).error
  {
  }

  /** A directory named like the query's file passes the existence check,
      so the server is asked, and the comparison then reports the file as
      missing. */
  lemma DirectoryNamedLikeFile(arg: string, client: Result<Profiles.Client, string>, sqlDir: Result<string, string>,
                               fs: Tree, fetch: int -> Result<Query, string>, prettyDiff: (string, string) -> string)
    requires Atoi(arg).Some? && client.Ok? && sqlDir.Ok?
    requires IsDirectory(fs, QueryFilePath(sqlDir.value, Atoi(arg).value))
    requires fetch(Atoi(arg).value).Ok?
    ensures var r := DiffQuery(arg, client, sqlDir, fs, fetch, prettyDiff);
      r.Printed? && r.result.status == Error
      && r.result.errorMessage == "local SQL file does not exist: " + QueryFilePath(sqlDir.value, Atoi(arg).value)
  {
  }
}
