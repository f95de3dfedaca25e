/** The host the runtime acts on, seen through the narrow set of calls it
    makes: `os.Stat`, `os.Mkdir`, `os.MkdirAll`, `os.WriteFile`,
    `os.RemoveAll`, reading and writing container records, and the shell and
    syscall steps that only leave an entry in the trace.

    The environment says which paths refuse service: a `denied` path fails
    every call (stat and read included), a `readOnly` path fails every change
    but can be read. `mountinfo` is the text of /proc/self/mountinfo, one
    string per line, or `None` when it cannot be opened. */
module HostOs {
  import opened Wrappers
  import opened Text
  import opened Platform
  import opened ContainerInfo

  datatype Env = Env(denied: set<string>, readOnly: set<string>, mountinfo: Option<seq<string>>)

  /** Directories, regular files with their contents, container records by
      id (each stored at `ConfigPath(id)`), and the steps taken so far. */
  datatype HostState = HostState(
    dirs: set<string>,
    files: map<string, string>,
    records: map<string, Info>,
    trace: seq<Action>)

  const PermissionDenied: string := "permission denied"
  const ReadOnlyFs: string := "read-only file system"
  const FileExists: string := "file exists"
  const NoSuchFile: string := "no such file or directory"
  const IsADirectory: string := "is a directory"
  const NotADirectory: string := "not a directory"

  /** `x` is `p` or lies in the tree below it. */
  predicate IsUnder(x: string, p: string)
  {
    p != "" && |p| <= |x| && x[..|p|] == p
    && (|x| == |p| || x[|p|] == '/' || p[|p| - 1] == '/')
  }

  predicate Exists(s: HostState, p: string)
  {
    p in s.dirs || p in s.files
  }

  function Log(s: HostState, a: Action): HostState
  {
    s.(trace := s.trace + [a])
  }

  function StatSpec(env: Env, s: HostState, p: string): StatResult
  {
    if p in env.denied then StatFailed(PermissionDenied)
    else if Exists(s, p) then Found
    else NotExist
  }

  /** What precedes the last '/' of `p`. */
  function BeforeLastSlash(p: string): (r: string)
    ensures |r| < |p| || p == ""
  {
    if p == "" then ""
    else if p[|p| - 1] == '/' then p[..|p| - 1]
    else BeforeLastSlash(p[..|p| - 1])
  }

  /** The directory a new entry `p` is made in: `p` up to its last '/',
      trailing slashes aside. It is "" when that directory is the root or
      the working directory, which always exist. Repeated slashes are not
      collapsed. */
  function ParentOf(p: string): string
  {
    if p == "" then ""
    else if p[|p| - 1] == '/' then ParentOf(p[..|p| - 1])
    else BeforeLastSlash(p)
  }

  /** The directory `p` would be made in exists. */
  predicate ParentPresent(s: HostState, p: string)
  {
    ParentOf(p) == "" || ParentOf(p) in s.dirs
  }

  /** A name without '/' joined to a directory lies directly in it. */
  lemma {:induction false} ParentOfJoin(dir: string, name: string)
    requires dir != "" && dir[|dir| - 1] != '/' && name != "" && '/' !in name
    ensures ParentOf(PathJoin(dir, name)) == dir
  {
    assert PathJoin(dir, name) == dir + "/" + name;
    BeforeLastSlashOfName(dir, name);
  }

  lemma {:induction false} BeforeLastSlashOfName(dir: string, name: string)
    requires '/' !in name
    ensures BeforeLastSlash(dir + "/" + name) == dir
    decreases |name|
  {
    var x := dir + "/" + name;
    if name == "" {
      assert x[..|x| - 1] == dir;
    } else {
      var n := name[..|name| - 1];
      assert x[|x| - 1] == name[|name| - 1];
      assert name[|name| - 1] in name;
      assert '/' !in n by {
        forall i | 0 <= i < |n| ensures n[i] != '/' { assert n[i] == name[i]; }
      }
      assert x[..|x| - 1] == dir + "/" + n;
      BeforeLastSlashOfName(dir, n);
    }
  }

  /** `os.Mkdir`: the new directory's parent must exist, and `p` must not. */
  function MkdirSpec(env: Env, s: HostState, p: string): (HostState, Outcome)
  {
    var t := Log(s, MakeDir(p));
    if p == "" then (t, Fail(NoSuchFile))
    else if p in env.denied then (t, Fail(PermissionDenied))
    else if !ParentPresent(s, p) then (t, Fail(NoSuchFile))
    else if Exists(s, p) then (t, Fail(FileExists))
    else if p in env.readOnly then (t, Fail(ReadOnlyFs))
    else (t.(dirs := s.dirs + {p}), Pass)
  }

  function MkdirAllSpec(env: Env, s: HostState, p: string): (HostState, Outcome)
  {
    var t := Log(s, MakeDirAll(p));
    if p == "" then (t, Fail(NoSuchFile))
    else if p in env.denied then (t, Fail(PermissionDenied))
    else if p in s.dirs then (t, Pass)
    else if p in s.files then (t, Fail(NotADirectory))
    else if p in env.readOnly then (t, Fail(ReadOnlyFs))
    else (t.(dirs := s.dirs + {p}), Pass)
  }

  /** `os.WriteFile(path.Join(dir, name), data)`: the file is created or
      truncated; its directory must exist ("" is the working directory,
      which always does). */
  function WriteFileSpec(env: Env, s: HostState, dir: string, name: string, data: string): (HostState, Outcome)
  {
    var p := PathJoin(dir, name);
    var t := Log(s, WriteFileAt(p, data));
    if p in env.denied then (t, Fail(PermissionDenied))
    else if dir != "" && dir !in s.dirs then (t, Fail(NoSuchFile))
    else if p in s.dirs then (t, Fail(IsADirectory))
    else if p in env.readOnly then (t, Fail(ReadOnlyFs))
    else (t.(files := s.files[p := data]), Pass)
  }

  /** Something is recorded at `p` or below it: a directory, a file or a
      container record. */
  predicate Occupied(s: HostState, p: string)
  {
    || (exists d :: d in s.dirs && IsUnder(d, p))
    || (exists f :: f in s.files && IsUnder(f, p))
    || (exists id :: id in s.records && IsUnder(ConfigPath(id), p))
  }

  /** `os.RemoveAll(p)`: the tree below `p` goes, records stored in it
      included; a path with nothing at or below it (and the empty path) is
      not an error. */
  function RemoveAllSpec(env: Env, s: HostState, p: string): (HostState, Outcome)
  {
    var t := Log(s, RemoveTree(p));
    if p == "" then (t, Pass)
    else if p in env.denied then (t, Fail(PermissionDenied))
    else if !Occupied(s, p) then (t, Pass)
    else if p in env.readOnly then (t, Fail(ReadOnlyFs))
    else
      var dirs := set d | d in s.dirs && !IsUnder(d, p);
      var files := map f | f in s.files && !IsUnder(f, p) :: s.files[f];
      var records := map id | id in s.records && !IsUnder(ConfigPath(id), p) :: s.records[id];
      (t.(dirs := dirs, files := files, records := records), Pass)
  }

  /** A removal that is not refused leaves nothing at or below its path. */
  lemma RemoveAllClears(env: Env, s: HostState, p: string)
    requires p != "" && p !in env.denied && p !in env.readOnly
    ensures var (t, err) := RemoveAllSpec(env, s, p);
      && err == Pass && !Occupied(t, p)
      && t.dirs <= s.dirs && t.files.Keys <= s.files.Keys && t.records.Keys <= s.records.Keys
  {
  }

  /** Reading and decoding the record file of a container. */
  function LoadRecordSpec(env: Env, s: HostState, containerId: string): Result<Info>
  {
    if ConfigPath(containerId) in env.denied then Err(PermissionDenied)
    else if containerId !in s.records then Err(NoSuchFile)
    else Ok(s.records[containerId])
  }

  /** Encoding a record and writing it over the record file; the record
      directory must exist. */
  function SaveRecordSpec(env: Env, s: HostState, containerId: string, info: Info): (HostState, Outcome)
  {
    var p := ConfigPath(containerId);
    var t := Log(s, SaveRecordAt(p));
    if p in env.denied then (t, Fail(PermissionDenied))
    else if InfoDir(containerId) !in s.dirs then (t, Fail(NoSuchFile))
    else if p in env.readOnly then (t, Fail(ReadOnlyFs))
    else (t.(records := s.records[containerId := info]), Pass)
  }

  /** A step that only touches the file store. */
  predicate FileStep(a: Action)
  {
    a.MakeDir? || a.MakeDirAll? || a.WriteFileAt? || a.RemoveTree?
  }

  /** `t`'s trace is `s`'s followed by file-store steps only. */
  predicate FileStepsOnly(s: HostState, t: HostState)
  {
    |s.trace| <= |t.trace| && t.trace[..|s.trace|] == s.trace
    && forall i :: |s.trace| <= i < |t.trace| ==> FileStep(t.trace[i])
  }

  /** File-store steps after file-store steps are file-store steps. */
  lemma FileStepsOnlyTrans(s: HostState, t: HostState, u: HostState)
    requires FileStepsOnly(s, t) && FileStepsOnly(t, u)
    ensures FileStepsOnly(s, u)
  {
    assert u.trace[..|s.trace|] == u.trace[..|t.trace|][..|s.trace|];
  }

  /** Each call on the file store logs exactly one file-store step. */
  lemma FileCallsLogFileSteps(env: Env, s: HostState, p: string, name: string, data: string)
    ensures FileStepsOnly(s, MkdirSpec(env, s, p).0) && FileStepsOnly(s, MkdirAllSpec(env, s, p).0)
    ensures FileStepsOnly(s, WriteFileSpec(env, s, p, name, data).0) && FileStepsOnly(s, RemoveAllSpec(env, s, p).0)
  {
    OneFileStep(s, MkdirSpec(env, s, p).0, MakeDir(p));
    OneFileStep(s, MkdirAllSpec(env, s, p).0, MakeDirAll(p));
    OneFileStep(s, WriteFileSpec(env, s, p, name, data).0, WriteFileAt(PathJoin(p, name), data));
    OneFileStep(s, RemoveAllSpec(env, s, p).0, RemoveTree(p));
  }

  lemma OneFileStep(s: HostState, t: HostState, a: Action)
    requires t.trace == s.trace + [a] && FileStep(a)
    ensures FileStepsOnly(s, t)
  {
  }

  class Host {
    var dirs: set<string>
    var files: map<string, string>
    var records: map<string, Info>
    var trace: seq<Action>
    const env: Env

    constructor (env: Env, dirs: set<string>, files: map<string, string>, records: map<string, Info>)
      ensures this.env == env && Snapshot() == HostState(dirs, files, records, [])
    {
      this.env := env;
      this.dirs, this.files, this.records, this.trace := dirs, files, records, [];
    }

    function Snapshot(): HostState
      reads this
    {
      HostState(dirs, files, records, trace)
    }

    method Restore(s: HostState)
      modifies this
      ensures Snapshot() == s
    {
      dirs, files, records, trace := s.dirs, s.files, s.records, s.trace;
    }

    method Stat(p: string) returns (st: StatResult)
      ensures st == StatSpec(env, Snapshot(), p)
    {
      st := StatSpec(env, Snapshot(), p);
    }

    method Mkdir(p: string) returns (err: Outcome)
      modifies this
      ensures (Snapshot(), err) == MkdirSpec(env, old(Snapshot()), p)
    {
      var r := MkdirSpec(env, Snapshot(), p);
      Restore(r.0);
      err := r.1;
    }

    method MkdirAll(p: string) returns (err: Outcome)
      modifies this
      ensures (Snapshot(), err) == MkdirAllSpec(env, old(Snapshot()), p)
    {
      var r := MkdirAllSpec(env, Snapshot(), p);
      Restore(r.0);
      err := r.1;
    }

    method WriteFile(dir: string, name: string, data: string) returns (err: Outcome)
      modifies this
      ensures (Snapshot(), err) == WriteFileSpec(env, old(Snapshot()), dir, name, data)
    {
      var r := WriteFileSpec(env, Snapshot(), dir, name, data);
      Restore(r.0);
      err := r.1;
    }

    method RemoveAll(p: string) returns (err: Outcome)
      modifies this
      ensures (Snapshot(), err) == RemoveAllSpec(env, old(Snapshot()), p)
    {
      var r := RemoveAllSpec(env, Snapshot(), p);
      Restore(r.0);
      err := r.1;
    }

    method LoadRecord(containerId: string) returns (r: Result<Info>)
      ensures r == LoadRecordSpec(env, Snapshot(), containerId)
    {
      r := LoadRecordSpec(env, Snapshot(), containerId);
    }

    method SaveRecord(containerId: string, info: Info) returns (err: Outcome)
      modifies this
      ensures (Snapshot(), err) == SaveRecordSpec(env, old(Snapshot()), containerId, info)
    {
      var r := SaveRecordSpec(env, Snapshot(), containerId, info);
      Restore(r.0);
      err := r.1;
    }

    /** A shell command or syscall whose outcome the runtime only logs. */
    method Run(a: Action)
      modifies this
      ensures Snapshot() == Log(old(Snapshot()), a)
    {
      trace := trace + [a];
    }
  }
}
