/** Comparing one local SQL file with the query of the same id on the
    Redash server (`internal/diff/diff.go`). */
module Diff {

  import opened Wrappers
  import opened Text
  import opened Files

  /** A query on the Redash server: its id, its name and its SQL text. */
  datatype Query = Query(id: int, name: string, query: string)

  /** The status of one comparison; `NoStatus` is the empty status a failed
      comparison leaves. */
  datatype Status = NoStatus | Match | Different | MissingInRedash | Error

  /** The status as the program writes it. */
  function StatusText(s: Status): (t: string)
    ensures t == "" <==> s == NoStatus
  {
    match s
    case NoStatus => ""
    case Match => "MATCH"
    case Different => "DIFFERENT"
    case MissingInRedash => "MISSING_IN_REDASH"
    case Error => "ERROR"
  }

  /** Distinct statuses are written differently. */
  lemma StatusTextInjective(s1: Status, s2: Status)
    ensures StatusText(s1) == StatusText(s2) ==> s1 == s2
  {
  }

  /** The outcome for one query (`Result`). */
  datatype DiffResult = DiffResult(
    queryID: int,
    queryName: string,
    status: Status,
    errorMessage: string,
    localPath: string,
    differences: string)

  /** The outcome of a whole directory (`Summary`). */
  datatype Summary = Summary(
    profile: string,
    sqlDirectory: string,
    matches: int,
    differences: int,
    missingInRedash: int,
    results: seq<DiffResult>)

  /** A result together with the error returned beside it. */
  datatype Compared = Compared(result: DiffResult, error: Option<string>)

  /** Local and remote text match when they agree once the white space at
      both ends is trimmed. */
  function Classify(local: string, remote: string): (s: Status)
    ensures s == Match || s == Different
    ensures s == Match <==> TrimSpace(local) == TrimSpace(remote)
  {
    if TrimSpace(local) == TrimSpace(remote) then Match else Different
  }

  /** White space added at either end of either text never turns a match
      into a difference or back. */
  lemma PaddingNeverChangesStatus(ws1: string, local: string, ws2: string, ws3: string, remote: string, ws4: string)
    requires AllSpace(ws1) && AllSpace(ws2) && AllSpace(ws3) && AllSpace(ws4)
    ensures Classify(ws1 + local + ws2, ws3 + remote + ws4) == Classify(local, remote)
  {
    TrimSpacePadding(ws1, local, ws2);
    TrimSpacePadding(ws3, remote, ws4);
  }

  /** `CompareQueryWithLocal`: the local file must exist and not be a
      directory; without a remote query the file is missing in Redash;
      otherwise the trimmed texts are compared, and `prettyDiff` stands for
      the diff library that renders a difference. */
  function CompareQueryWithLocal(queryID: int, remote: Option<Query>, localPath: string, fs: Tree,
                                 prettyDiff: (string, string) -> string): (c: Compared)
    ensures c.result.queryID == queryID && c.result.localPath == localPath
    ensures c.result.errorMessage == ""
    ensures c.error.Some? <==> c.result.status == NoStatus
    ensures c.error.None? ==> c.result.status in {Match, Different, MissingInRedash}
    ensures !IsFile(fs, localPath) ==>
      c == Compared(DiffResult(queryID, "", NoStatus, "", localPath, ""),
                    Some("local SQL file does not exist: " + localPath))
    ensures IsFile(fs, localPath) ==>
      c.result.queryName == (if remote.Some? then remote.value.name else "")
    ensures IsFile(fs, localPath) && fs[localPath].readError.Some? ==>
      c.error == Some("failed to read local file: " + fs[localPath].readError.value)
    ensures IsFile(fs, localPath) && fs[localPath].readError.None? && remote.None? ==>
      c.error.None? && c.result.status == MissingInRedash && c.result.queryName == ""
    ensures IsFile(fs, localPath) && fs[localPath].readError.None? && remote.Some? ==>
      c.result.status == Classify(fs[localPath].content, remote.value.query)
    ensures c.result.status != Different ==> c.result.differences == ""
    ensures c.result.status == Different ==>
      c.result.differences == prettyDiff(TrimSpace(fs[localPath].content), TrimSpace(remote.value.query))
  {
    var empty := DiffResult(queryID, "", NoStatus, "", localPath, "");
    if !Exists(fs, localPath) || !IsFile(fs, localPath) then
      Compared(empty, Some("local SQL file does not exist: " + localPath))
    else
      var named := if remote.Some? then empty.(queryName := remote.value.name) else empty;
      var node := fs[localPath];
      if node.readError.Some? then
        Compared(named, Some("failed to read local file: " + node.readError.value))
      else if remote.None? then
        Compared(named.(status := MissingInRedash), None)
      else
        var localSQL := TrimSpace(node.content);
        var redashSQL := TrimSpace(remote.value.query);
        if localSQL == redashSQL then
          Compared(named.(status := Match), None)
        else
          Compared(named.(status := Different, differences := prettyDiff(localSQL, redashSQL)), None)
  }

  /** Two local files that differ only in white space at their ends compare
      the same way with the same remote query. */
  lemma PaddedFileComparesAlike(queryID: int, q: Query, path: string, fs: Tree, ws1: string, ws2: string,
                                prettyDiff: (string, string) -> string)
    requires IsFile(fs, path) && fs[path].readError.None?
    requires AllSpace(ws1) && AllSpace(ws2)
    ensures var padded := fs[path := File(ws1 + fs[path].content + ws2, None)];
      CompareQueryWithLocal(queryID, Some(q), path, padded, prettyDiff)
        == CompareQueryWithLocal(queryID, Some(q), path, fs, prettyDiff)
  {
    TrimSpacePadding(ws1, fs[path].content, ws2);
  }
}
