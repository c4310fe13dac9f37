/** The file system as the program sees it through `os.Stat`, `os.ReadFile`
    and `os.WriteFile`: a map from path to node. */
module Files {

  import opened Wrappers

  /** A regular file with its text and the error reading it would give
      (None when it reads), or a directory. */
  datatype Node = File(content: string, readError: Option<string>) | Directory

  type Tree = map<string, Node>

  /** `file.Exists`: `os.Stat` succeeds. */
  predicate Exists(fs: Tree, path: string) {
    path in fs
  }

  /** `file.IsDirectory`: it exists and is a directory. */
  predicate IsDirectory(fs: Tree, path: string) {
    path in fs && fs[path].Directory?
  }

  /** `file.IsFile`: it exists and is not a directory. */
  predicate IsFile(fs: Tree, path: string) {
    path in fs && !fs[path].Directory?
  }

  /** `filepath.Join` of a directory and a file name. */
  function JoinPath(dir: string, name: string): string {
    dir + "/" + name
  }

  /** `filepath.Dir`: what comes before the last '/', "/" when that is the
      leading one, "." when there is none. */
  function Dir(path: string): (d: string)
    ensures d != ""
    decreases |path|
  {
    if |path| == 0 then "."
    else if path[|path| - 1] == '/' then (if |path| == 1 then "/" else path[..|path| - 1])
    else Dir(path[..|path| - 1])
  }

  /** The directory of a joined path is the directory it was joined to,
      when the name holds no '/'. */
  lemma {:induction false} DirOfJoin(dir: string, name: string)
    requires dir != ""
    requires forall k :: 0 <= k < |name| ==> name[k] != '/'
    ensures Dir(JoinPath(dir, name)) == dir
    decreases |name|
  {
    var p := JoinPath(dir, name);
    if |name| == 0 {
      assert p[..|p| - 1] == dir;
    } else {
      var shorter := name[..|name| - 1];
      assert p[..|p| - 1] == JoinPath(dir, shorter);
      DirOfJoin(dir, shorter);
    }
  }

  /** What the operating system answers to the two steps of
      `file.WriteFile`: creating the missing parent directory with
      `os.MkdirAll`, then writing the file. Each answer is consulted only
      when its step runs; None is success. */
  datatype WriteAnswers = WriteAnswers(mkdirError: Option<string>, writeError: Option<string>)

  /** The error `file.WriteFile` returns: the parent directory is created
      only when it does not exist, and its failure stops the write. */
  function WriteOutcome(fs: Tree, path: string, answers: WriteAnswers): (err: Option<string>)
    ensures Dir(path) in fs ==> err == answers.writeError
    ensures answers.mkdirError.None? ==> err == answers.writeError
    ensures Dir(path) !in fs && answers.mkdirError.Some? ==>
      err == Some("failed to create directory " + Dir(path) + ": " + answers.mkdirError.value)
  {
    if Dir(path) !in fs && answers.mkdirError.Some? then
      Some("failed to create directory " + Dir(path) + ": " + answers.mkdirError.value)
    else answers.writeError
  }

  /** The file system after `file.WriteFile`: a missing parent directory is
      created first, and stays even when the write then fails; the path
      holds exactly `data` when the write succeeds. */
  function Written(fs: Tree, path: string, data: string, answers: WriteAnswers): (r: Tree)
    ensures forall p :: p in fs && p != path ==> p in r && r[p] == fs[p]
    ensures WriteOutcome(fs, path, answers).None? ==> path in r && r[path] == File(data, None)
    ensures WriteOutcome(fs, path, answers).Some? ==> forall p :: p in fs ==> p in r && r[p] == fs[p]
    ensures WriteOutcome(fs, path, answers).Some? ==> forall p :: p in r ==> p in fs || p == Dir(path)
    ensures Dir(path) !in fs && answers.mkdirError.None? && Dir(path) != path ==> IsDirectory(r, Dir(path))
    ensures Dir(path) !in fs && answers.mkdirError.Some? ==> r == fs
    ensures forall p :: p in r ==> p in fs || p == path || p == Dir(path)
  {
    if Dir(path) !in fs && answers.mkdirError.Some? then fs
    else
      var withDir := if Dir(path) in fs then fs else fs[Dir(path) := Directory];
      if answers.writeError.None? then withDir[path := File(data, None)] else withDir
  }

  /** The machine's file system, which the program changes in place. */
  class Disk {
    var nodes: Tree

    constructor (initial: Tree)
      ensures nodes == initial
    {
      nodes := initial;
    }

    /** `file.WriteFile`: ensure the parent directory, then write the
        file. */
    method WriteFile(path: string, data: string, answers: WriteAnswers) returns (err: Option<string>)
      modifies this
      ensures err == WriteOutcome(old(nodes), path, answers)
      ensures nodes == Written(old(nodes), path, data, answers)
    {
      var dir := Dir(path);
      if !Exists(nodes, dir) {
        if answers.mkdirError.Some? {
          return Some("failed to create directory " + dir + ": " + answers.mkdirError.value);
        }
        nodes := nodes[dir := Directory];
      }
      err := answers.writeError;
      if err.None? {
        nodes := nodes[path := File(data, None)];
      }
    }
  }
}
