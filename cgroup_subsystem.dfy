/** cgroups/subsystem: the three resource controllers (memory, cpu, cpuset),
    how each finds its cgroup directory from /proc/self/mountinfo, and the
    files each writes to limit a container and to move a process into it. */
module Subsystems {
  import opened Wrappers
  import opened Text
  import opened Platform
  import opened HostOs

  /** The limits a container asks for; "" and 0 mean "not set". */
  datatype ResourceConfig = ResourceConfig(
    memoryLimit: string,
    cpuCfsQuota: int,
    cpuShare: string,
    cpuSet: string)

  datatype Subsystem = Memory | Cpu | Cpuset
  {
    function Name(): string
    {
      match this
      case Memory => "memory"
      case Cpu => "cpu"
      case Cpuset => "cpuset"
    }
  }

  /** The controllers in the order every manager operation visits them. */
  const SubsystemsIns: seq<Subsystem> := [Memory, Cpu, Cpuset]

  const MountPointIndex: nat := 4
  const PeriodDefault: int := 100000
  const Percent: int := 100

  // ---------------------------------------------------------------------
  // Finding the mount point.

  function Fields(line: string): (f: seq<string>)
    ensures |f| >= 1
  {
    Split(line, ' ')
  }

  /** The line's last space-separated field, split at its commas, holds an
      option equal to the controller's name. */
  predicate Mentions(line: string, name: string)
  {
    var f := Fields(line);
    name in Split(f[|f| - 1], ',')
  }

  /** The first line mentioning `name`, if any. */
  function FirstMention(lines: seq<string>, name: string): (r: Option<nat>)
    ensures r.None? <==> forall i :: 0 <= i < |lines| ==> !Mentions(lines[i], name)
    ensures r.Some? ==> r.value < |lines| && Mentions(lines[r.value], name)
                        && forall j :: 0 <= j < r.value ==> !Mentions(lines[j], name)
  {
    if |lines| == 0 then None
    else if Mentions(lines[0], name) then Some(0)
    else match FirstMention(lines[1..], name)
      case None => None
      case Some(i) => Some(i + 1)
  }

  /** What `findCgroupMountpoint` needs of the mount table: the first line
      naming the controller has a mount-point field (else indexing it
      panics). */
  predicate MountTableOk(mountinfo: Option<seq<string>>, name: string)
  {
    mountinfo.Some? ==>
      var m := FirstMention(mountinfo.value, name);
      m.Some? ==> |Fields(mountinfo.value[m.value])| > MountPointIndex
  }

  /** The mount point of a controller: the fifth field of the first line
      naming it; "" when no line does or the table cannot be read. */
  function Mountpoint(mountinfo: Option<seq<string>>, name: string): string
    requires MountTableOk(mountinfo, name)
  {
    if mountinfo.None? then ""
    else match FirstMention(mountinfo.value, name)
      case None => ""
      case Some(i) => Fields(mountinfo.value[i])[MountPointIndex]
  }

  /** `findCgroupMountpoint`: a scan of the lines, and of each line's options,
      that stops at the first exact match. */
  method FindCgroupMountpoint(mountinfo: Option<seq<string>>, name: string) returns (root: string)
    requires MountTableOk(mountinfo, name)
    ensures root == Mountpoint(mountinfo, name)
  {
    if mountinfo.None? {
      return "";
    }
    var lines := mountinfo.value;
    var i := 0;
    while i < |lines|
      invariant 0 <= i <= |lines|
      invariant forall j :: 0 <= j < i ==> !Mentions(lines[j], name)
    {
      var found := HasOption(lines[i], name);
      if found {
        MountpointAt(mountinfo, name, i);
        var field := Fields(lines[i]);
        return field[MountPointIndex];
      }
      i := i + 1;
    }
    NoMountpoint(mountinfo, name);
    return "";
  }

  /** With no line mentioning the controller the mount point is "". */
  lemma NoMountpoint(mountinfo: Option<seq<string>>, name: string)
    requires MountTableOk(mountinfo, name) && mountinfo.Some?
    requires forall j :: 0 <= j < |mountinfo.value| ==> !Mentions(mountinfo.value[j], name)
    ensures Mountpoint(mountinfo, name) == ""
  {
  }

  /** The scan of one line's options for the controller's exact name. */
  method HasOption(line: string, name: string) returns (found: bool)
    ensures found <==> Mentions(line, name)
  {
    var field := Split(line, ' ');
    var subsystems := Split(field[|field| - 1], ',');
    assert Mentions(line, name) <==> name in subsystems;
    var k := 0;
    while k < |subsystems|
      invariant 0 <= k <= |subsystems|
      invariant name !in subsystems[..k]
    {
      if subsystems[k] == name {
        return true;
      }
      assert subsystems[..k + 1] == subsystems[..k] + [subsystems[k]];
      k := k + 1;
    }
    assert subsystems[..k] == subsystems;
    return false;
  }

  /** A line mentions a controller exactly when the options split off its
      last field hold the controller's name. */
  lemma MentionsBySplit(line: string, name: string, subsystems: seq<string>)
    requires subsystems == Split(Fields(line)[|Fields(line)| - 1], ',')
    ensures Mentions(line, name) <==> exists m :: 0 <= m < |subsystems| && subsystems[m] == name
    ensures (forall m :: 0 <= m < |subsystems| ==> subsystems[m] != name) ==> !Mentions(line, name)
  {
  }

  /** The first line mentioning the controller has a mount-point field, and
      that field is the mount point. */
  lemma MountpointAt(mountinfo: Option<seq<string>>, name: string, i: nat)
    requires MountTableOk(mountinfo, name) && mountinfo.Some? && i < |mountinfo.value|
    requires Mentions(mountinfo.value[i], name)
    requires forall j :: 0 <= j < i ==> !Mentions(mountinfo.value[j], name)
    ensures |Fields(mountinfo.value[i])| > MountPointIndex
    ensures Mountpoint(mountinfo, name) == Fields(mountinfo.value[i])[MountPointIndex]
  {
    FirstMentionAt(mountinfo.value, name, i);
  }

  /** A mentioning line with none before it is the first mention. */
  lemma FirstMentionAt(lines: seq<string>, name: string, i: nat)
    requires i < |lines| && Mentions(lines[i], name)
    requires forall j :: 0 <= j < i ==> !Mentions(lines[j], name)
    ensures FirstMention(lines, name) == Some(i)
  {
    var m := FirstMention(lines, name);
    assert m.Some?;
    assert !(m.value < i) && !(i < m.value);
  }

  /** The mount point is the fifth field of the first line naming the
      controller, and "" exactly when no line names it or the table cannot be
      read (or that field is itself empty). */
  lemma MountpointIsFirstMention(mountinfo: Option<seq<string>>, name: string)
    requires MountTableOk(mountinfo, name)
    ensures mountinfo.None? ==> Mountpoint(mountinfo, name) == ""
    ensures mountinfo.Some? && (forall i :: 0 <= i < |mountinfo.value| ==> !Mentions(mountinfo.value[i], name))
            ==> Mountpoint(mountinfo, name) == ""
    ensures forall i :: mountinfo.Some? && 0 <= i < |mountinfo.value| && Mentions(mountinfo.value[i], name)
                        && (forall j :: 0 <= j < i ==> !Mentions(mountinfo.value[j], name))
                        ==> Mountpoint(mountinfo, name) == Fields(mountinfo.value[i])[MountPointIndex]
  {
    if mountinfo.Some? {
      var lines := mountinfo.value;
      forall i | 0 <= i < |lines| && Mentions(lines[i], name) && (forall j :: 0 <= j < i ==> !Mentions(lines[j], name))
        ensures Mountpoint(mountinfo, name) == Fields(lines[i])[MountPointIndex]
      {
        var m := FirstMention(lines, name).value;
        assert !(m < i) && !(i < m);
      }
    }
  }

  /** A mount-table line whose fields hold no space and whose last field is
      the comma-joined options mentions exactly the controllers among those
      options: "cpu" is found in "rw,cpu,cpuacct" and not in "rw,cpuset". */
  lemma MentionsExactly(fields: seq<string>, opts: seq<string>, name: string)
    requires |fields| >= 1 && |opts| >= 1
    requires forall i :: 0 <= i < |fields| ==> ' ' !in fields[i]
    requires forall i :: 0 <= i < |opts| ==> ',' !in opts[i]
    requires fields[|fields| - 1] == Join(opts, ",")
    ensures Mentions(Join(fields, " "), name) <==> name in opts
  {
    var line := Join(fields, " ");
    assert Fields(line) == fields by { SplitJoin(fields, ' '); }
    assert Split(fields[|fields| - 1], ',') == opts by { SplitJoin(opts, ','); }
  }

  // ---------------------------------------------------------------------
  // The cgroup directory of a controller.

  /** `getCgroupPath`: the cgroup directory under the controller's mount
      point; with `autoCreate` it must not exist yet and is made. */
  function GetCgroupPathSpec(env: Env, s: HostState, name: string, cgroupPath: string, autoCreate: bool)
    : (HostState, string, Outcome)
    requires MountTableOk(env.mountinfo, name)
  {
    var absPath := PathJoin(Mountpoint(env.mountinfo, name), cgroupPath);
    if !autoCreate then (s, absPath, Pass)
    else match StatSpec(env, s, absPath)
      case NotExist =>
        var (t, err) := MkdirSpec(env, s, absPath);
        (t, absPath, err)
      case Found => (s, absPath, Fail("create cgroup"))
      case StatFailed(msg) => (s, absPath, Fail(msg))
  }

  method GetCgroupPath(h: Host, name: string, cgroupPath: string, autoCreate: bool)
    returns (absPath: string, err: Outcome)
    requires MountTableOk(h.env.mountinfo, name)
    modifies h
    ensures (h.Snapshot(), absPath, err) == GetCgroupPathSpec(h.env, old(h.Snapshot()), name, cgroupPath, autoCreate)
  {
    var cgroupRoot := FindCgroupMountpoint(h.env.mountinfo, name);
    absPath := PathJoin(cgroupRoot, cgroupPath);
    if !autoCreate {
      return absPath, Pass;
    }
    var st := h.Stat(absPath);
    if st == NotExist {
      err := h.Mkdir(absPath);
      return;
    }
    if st == Found {
      err := Fail("create cgroup");
    } else {
      err := Fail(st.msg);
    }
  }

  /** Without `autoCreate` the directory is only computed: the host is left
      as it was and no error is possible. */
  lemma GetCgroupPathLookupOnly(env: Env, s: HostState, name: string, cgroupPath: string)
    requires MountTableOk(env.mountinfo, name)
    ensures var (t, p, err) := GetCgroupPathSpec(env, s, name, cgroupPath, false);
      t == s && err == Pass && p == PathJoin(Mountpoint(env.mountinfo, name), cgroupPath)
  {
  }

  /** With `autoCreate`, an absent directory is created (the mkdir's own
      error is returned, "no such file or directory" when its parent is
      missing) and an existing one is refused with "create cgroup". */
  lemma GetCgroupPathCreates(env: Env, s: HostState, name: string, cgroupPath: string)
    requires MountTableOk(env.mountinfo, name)
    ensures var p := PathJoin(Mountpoint(env.mountinfo, name), cgroupPath);
      var (t, q, err) := GetCgroupPathSpec(env, s, name, cgroupPath, true);
      && q == p
      && (p !in env.denied && Exists(s, p) ==> t == s && err == Fail("create cgroup"))
      && (p != "" && p !in env.denied && !Exists(s, p) && !ParentPresent(s, p)
          ==> err == Fail(NoSuchFile) && t.dirs == s.dirs)
      && (p != "" && p !in env.denied && p !in env.readOnly && !Exists(s, p) && ParentPresent(s, p)
          ==> err == Pass && t.dirs == s.dirs + {p} && t.files == s.files && t.records == s.records)
      && (err == Pass ==> p in t.dirs && p !in s.dirs)
  {
  }

  // ---------------------------------------------------------------------
  // The controllers.

  /** Whether the configuration sets anything this controller enforces. */
  predicate Configured(sub: Subsystem, res: ResourceConfig)
  {
    match sub
    case Memory => res.memoryLimit != ""
    case Cpu => res.cpuCfsQuota != 0 || res.cpuShare != ""
    case Cpuset => res.cpuSet != ""
  }

  /** `cpu.cfs_quota_us` for a quota given in percent of one CPU. */
  function QuotaMicros(quota: int): string
  {
    Itoa(PeriodDefault / Percent * quota)
  }

  /** A write whose error, if any, is reported under `prefix`. */
  function WriteWrapped(env: Env, s: HostState, dir: string, name: string, data: string, prefix: string)
    : (HostState, Outcome)
  {
    var (t, err) := WriteFileSpec(env, s, dir, name, data);
    if err.Fail? then (t, Fail(prefix + err.msg)) else (t, Pass)
  }

  const CpuWriteFail: string := "set cgroup cpu share fail: "

  /** The cpu controller's writes after its directory is made: the share,
      then the period and the quota, stopping at the first failure. */
  function CpuWrites(env: Env, s: HostState, dir: string, res: ResourceConfig): (HostState, Outcome)
  {
    var (s1, e1) := if res.cpuShare != "" then WriteWrapped(env, s, dir, "cpu.shares", res.cpuShare, CpuWriteFail)
                    else (s, Pass);
    if e1.Fail? || res.cpuCfsQuota == 0 then (s1, e1)
    else
      var (s2, e2) := WriteWrapped(env, s1, dir, "cpu.cfs_period_us", Itoa(PeriodDefault), CpuWriteFail);
      if e2.Fail? then (s2, e2)
      else WriteWrapped(env, s2, dir, "cpu.cfs_quota_us", QuotaMicros(res.cpuCfsQuota), CpuWriteFail)
  }

  /** `Set` of each controller. */
  function SetSpec(env: Env, s: HostState, sub: Subsystem, cgroupPath: string, res: ResourceConfig)
    : (HostState, Outcome)
    requires MountTableOk(env.mountinfo, sub.Name())
  {
    if !Configured(sub, res) then (s, Pass)
    else
      var (s1, dir, err) := GetCgroupPathSpec(env, s, sub.Name(), cgroupPath, true);
      if err.Fail? then (s1, err)
      else match sub
        case Memory => WriteWrapped(env, s1, dir, "memory.limit_in_bytes", res.memoryLimit, "set cgroup memory fail ")
        case Cpu => CpuWrites(env, s1, dir, res)
        case Cpuset => WriteWrapped(env, s1, dir, "cpuset.cpus", res.cpuSet, "set cgroup cpuset fail ")
  }

  /** `Apply` of each controller: the pid goes into the `tasks` file of the
      (not created) cgroup directory. */
  function ApplySpec(env: Env, s: HostState, sub: Subsystem, cgroupPath: string, pid: int, res: ResourceConfig)
    : (HostState, Outcome)
    requires MountTableOk(env.mountinfo, sub.Name())
  {
    if !Configured(sub, res) then (s, Pass)
    else
      var dir := GetCgroupPathSpec(env, s, sub.Name(), cgroupPath, false).1;
      var prefix := if sub == Cpuset then "set cgroup proc fail: " else "set cgroup proc fail ";
      WriteWrapped(env, s, dir, "tasks", Itoa(pid), prefix)
  }

  /** `Remove` of each controller: the cgroup directory goes. */
  function RemoveSpec(env: Env, s: HostState, sub: Subsystem, cgroupPath: string): (HostState, Outcome)
    requires MountTableOk(env.mountinfo, sub.Name())
  {
    RemoveAllSpec(env, s, GetCgroupPathSpec(env, s, sub.Name(), cgroupPath, false).1)
  }

  method WriteWrappedFile(h: Host, dir: string, name: string, data: string, prefix: string) returns (err: Outcome)
    modifies h
    ensures (h.Snapshot(), err) == WriteWrapped(h.env, old(h.Snapshot()), dir, name, data, prefix)
  {
    err := h.WriteFile(dir, name, data);
    if err.Fail? {
      err := Fail(prefix + err.msg);
    }
  }

  method SetCpuFiles(h: Host, dir: string, res: ResourceConfig) returns (err: Outcome)
    modifies h
    ensures (h.Snapshot(), err) == CpuWrites(h.env, old(h.Snapshot()), dir, res)
  {
    err := Pass;
    if res.cpuShare != "" {
      err := WriteWrappedFile(h, dir, "cpu.shares", res.cpuShare, CpuWriteFail);
      if err.Fail? {
        return;
      }
    }
    if res.cpuCfsQuota != 0 {
      err := WriteWrappedFile(h, dir, "cpu.cfs_period_us", Itoa(PeriodDefault), CpuWriteFail);
      if err.Fail? {
        return;
      }
      err := WriteWrappedFile(h, dir, "cpu.cfs_quota_us", Itoa(PeriodDefault / Percent * res.cpuCfsQuota), CpuWriteFail);
    }
  }

  method Set(h: Host, sub: Subsystem, cgroupPath: string, res: ResourceConfig) returns (err: Outcome)
    requires MountTableOk(h.env.mountinfo, sub.Name())
    modifies h
    ensures (h.Snapshot(), err) == SetSpec(h.env, old(h.Snapshot()), sub, cgroupPath, res)
  {
    if !Configured(sub, res) {
      return Pass;
    }
    var dir;
    dir, err := GetCgroupPath(h, sub.Name(), cgroupPath, true);
    if err.Fail? {
      return;
    }
    match sub
    case Memory =>
      err := WriteWrappedFile(h, dir, "memory.limit_in_bytes", res.memoryLimit, "set cgroup memory fail ");
    case Cpu =>
      err := SetCpuFiles(h, dir, res);
    case Cpuset =>
      err := WriteWrappedFile(h, dir, "cpuset.cpus", res.cpuSet, "set cgroup cpuset fail ");
  }

  method Apply(h: Host, sub: Subsystem, cgroupPath: string, pid: int, res: ResourceConfig) returns (err: Outcome)
    requires MountTableOk(h.env.mountinfo, sub.Name())
    modifies h
    ensures (h.Snapshot(), err) == ApplySpec(h.env, old(h.Snapshot()), sub, cgroupPath, pid, res)
  {
    if !Configured(sub, res) {
      return Pass;
    }
    var dir;
    dir, err := GetCgroupPath(h, sub.Name(), cgroupPath, false);
    var prefix := if sub == Cpuset then "set cgroup proc fail: " else "set cgroup proc fail ";
    err := WriteWrappedFile(h, dir, "tasks", Itoa(pid), prefix);
  }

  method Remove(h: Host, sub: Subsystem, cgroupPath: string) returns (err: Outcome)
    requires MountTableOk(h.env.mountinfo, sub.Name())
    modifies h
    ensures (h.Snapshot(), err) == RemoveSpec(h.env, old(h.Snapshot()), sub, cgroupPath)
  {
    var dir;
    dir, err := GetCgroupPath(h, sub.Name(), cgroupPath, false);
    err := h.RemoveAll(dir);
  }

  // ---------------------------------------------------------------------
  // What the controllers promise.

  /** With nothing configured for it, a controller's Set and Apply leave the
      host untouched (no directory is made) and succeed. */
  lemma UnconfiguredIsNoop(env: Env, s: HostState, sub: Subsystem, cgroupPath: string, pid: int, res: ResourceConfig)
    requires MountTableOk(env.mountinfo, sub.Name()) && !Configured(sub, res)
    ensures SetSpec(env, s, sub, cgroupPath, res) == (s, Pass)
    ensures ApplySpec(env, s, sub, cgroupPath, pid, res) == (s, Pass)
  {
  }

  /** The directory of a controller's cgroup. */
  function CgroupDir(env: Env, sub: Subsystem, cgroupPath: string): string
    requires MountTableOk(env.mountinfo, sub.Name())
  {
    PathJoin(Mountpoint(env.mountinfo, sub.Name()), cgroupPath)
  }

  /** Set refuses a cgroup directory that already exists, before writing
      anything. */
  lemma SetRefusesExistingCgroup(env: Env, s: HostState, sub: Subsystem, cgroupPath: string, res: ResourceConfig)
    requires MountTableOk(env.mountinfo, sub.Name()) && Configured(sub, res)
    requires CgroupDir(env, sub, cgroupPath) !in env.denied && Exists(s, CgroupDir(env, sub, cgroupPath))
    ensures SetSpec(env, s, sub, cgroupPath, res) == (s, Fail("create cgroup"))
  {
  }

  /** The files the controllers write inside a cgroup directory. */
  const CgroupFiles: set<string> :=
    {"cpu.shares", "cpu.cfs_period_us", "cpu.cfs_quota_us", "memory.limit_in_bytes", "cpuset.cpus", "tasks"}

  /** Neither the cgroup directory nor any controller file in it is refused. */
  predicate Writable(env: Env, dir: string)
  {
    && dir != "" && dir !in env.denied && dir !in env.readOnly
    && forall name :: name in CgroupFiles ==> PathJoin(dir, name) !in env.denied && PathJoin(dir, name) !in env.readOnly
  }

  /** No controller file of `dir` is a directory. */
  predicate NoDirectoryFiles(s: HostState, dir: string)
  {
    forall name :: name in CgroupFiles ==> PathJoin(dir, name) !in s.dirs
  }

  /** A file name joined to a directory names something strictly below it. */
  lemma PathJoinBelow(dir: string, name: string)
    requires dir != "" && name != "" && name[0] != '/'
    ensures |PathJoin(dir, name)| > |dir|
  {
  }

  /** Two different file names in one directory are two different files. */
  lemma PathJoinDistinct(dir: string, a: string, b: string)
    requires dir != "" && a != "" && b != "" && a[0] != '/' && b[0] != '/' && a != b
    ensures PathJoin(dir, a) != PathJoin(dir, b)
  {
    var base := if dir[|dir| - 1] == '/' then dir else dir + "/";
    assert PathJoin(dir, a) == base + a && PathJoin(dir, b) == base + b;
    assert (base + a)[|base|..] == a && (base + b)[|base|..] == b;
  }

  /** A write into an existing directory, to a file that is neither refused
      nor a directory, stores exactly that file. */
  lemma WriteWrappedStores(env: Env, s: HostState, dir: string, name: string, data: string, prefix: string)
    requires dir in s.dirs && PathJoin(dir, name) !in s.dirs
    requires PathJoin(dir, name) !in env.denied && PathJoin(dir, name) !in env.readOnly
    ensures var (t, err) := WriteWrapped(env, s, dir, name, data, prefix);
      err == Pass && t.dirs == s.dirs && t.records == s.records && t.files == s.files[PathJoin(dir, name) := data]
  {
  }

  /** On a writable directory the cpu controller's writes all land: the share
      verbatim, "100000" as the period, and 1000 times the percentage as the
      quota. */
  lemma CpuWritesStore(env: Env, s: HostState, dir: string, res: ResourceConfig)
    requires dir in s.dirs && Writable(env, dir) && NoDirectoryFiles(s, dir)
    ensures var (t, err) := CpuWrites(env, s, dir, res);
      && err == Pass && t.dirs == s.dirs
      && (res.cpuShare != "" ==> t.files[PathJoin(dir, "cpu.shares")] == res.cpuShare)
      && (res.cpuCfsQuota != 0 ==> t.files[PathJoin(dir, "cpu.cfs_period_us")] == Itoa(100000)
                                   && t.files[PathJoin(dir, "cpu.cfs_quota_us")] == Itoa(1000 * res.cpuCfsQuota))
  {
    assert "cpu.shares" in CgroupFiles && "cpu.cfs_period_us" in CgroupFiles && "cpu.cfs_quota_us" in CgroupFiles;
    PathJoinDistinct(dir, "cpu.shares", "cpu.cfs_period_us");
    PathJoinDistinct(dir, "cpu.shares", "cpu.cfs_quota_us");
    PathJoinDistinct(dir, "cpu.cfs_period_us", "cpu.cfs_quota_us");
    var s1 := s;
    if res.cpuShare != "" {
      WriteWrappedStores(env, s, dir, "cpu.shares", res.cpuShare, CpuWriteFail);
      s1 := WriteWrapped(env, s, dir, "cpu.shares", res.cpuShare, CpuWriteFail).0;
    }
    if res.cpuCfsQuota != 0 {
      WriteWrappedStores(env, s1, dir, "cpu.cfs_period_us", Itoa(PeriodDefault), CpuWriteFail);
      var s2 := WriteWrapped(env, s1, dir, "cpu.cfs_period_us", Itoa(PeriodDefault), CpuWriteFail).0;
      WriteWrappedStores(env, s2, dir, "cpu.cfs_quota_us", QuotaMicros(res.cpuCfsQuota), CpuWriteFail);
    }
  }

  /** Set of a configured controller on a fresh, writable cgroup directory
      creates that directory and nothing else, and succeeds. */
  lemma SetCreatesCgroup(env: Env, s: HostState, sub: Subsystem, cgroupPath: string)
    requires MountTableOk(env.mountinfo, sub.Name())
    requires var d := CgroupDir(env, sub, cgroupPath);
      Writable(env, d) && ParentPresent(s, d) && !Exists(s, d) && NoDirectoryFiles(s, d)
    ensures var d := CgroupDir(env, sub, cgroupPath);
      var (t, p, err) := GetCgroupPathSpec(env, s, sub.Name(), cgroupPath, true);
      && p == d && err == Pass && t.dirs == s.dirs + {d} && t.files == s.files && t.records == s.records
      && d in t.dirs && NoDirectoryFiles(t, d)
  {
    var d := CgroupDir(env, sub, cgroupPath);
    forall name | name in CgroupFiles
      ensures PathJoin(d, name) != d
    {
      PathJoinBelow(d, name);
    }
  }

  /** On a fresh, writable cgroup directory the cpu controller creates it and
      writes its limits there: a quota of 20 percent becomes "20000"
      microseconds per "100000". */
  lemma CpuSetWritesLimits(env: Env, s: HostState, cgroupPath: string, res: ResourceConfig)
    requires MountTableOk(env.mountinfo, "cpu") && Configured(Cpu, res)
    requires var d := CgroupDir(env, Cpu, cgroupPath);
      Writable(env, d) && ParentPresent(s, d) && !Exists(s, d) && NoDirectoryFiles(s, d)
    ensures var d := CgroupDir(env, Cpu, cgroupPath);
      var (t, err) := SetSpec(env, s, Cpu, cgroupPath, res);
      && err == Pass
      && d in t.dirs
      && (res.cpuShare != "" ==> t.files[PathJoin(d, "cpu.shares")] == res.cpuShare)
      && (res.cpuCfsQuota != 0 ==> t.files[PathJoin(d, "cpu.cfs_period_us")] == "100000"
                                   && t.files[PathJoin(d, "cpu.cfs_quota_us")] == Itoa(1000 * res.cpuCfsQuota))
      && (res.cpuCfsQuota == 20 ==> t.files[PathJoin(d, "cpu.cfs_quota_us")] == "20000")
  {
    var d := CgroupDir(env, Cpu, cgroupPath);
    SetCreatesCgroup(env, s, Cpu, cgroupPath);
    var s1 := GetCgroupPathSpec(env, s, "cpu", cgroupPath, true).0;
    CpuWritesStore(env, s1, d, res);
    ItoaLiterals();
  }

  /** The decimals of the default period and of a 20 percent quota. */
  lemma ItoaLiterals()
    ensures Itoa(100000) == "100000" && Itoa(20000) == "20000"
  {
    TimesTen(1, "1");
    TimesTen(10, "10");
    TimesTen(100, "100");
    TimesTen(1000, "1000");
    TimesTen(10000, "10000");
    TimesTen(2, "2");
    TimesTen(20, "20");
    TimesTen(200, "200");
    TimesTen(2000, "2000");
  }

  /** Ten times a positive number is written as that number followed by a 0. */
  lemma TimesTen(n: nat, d: string)
    requires n >= 1 && NatToString(n) == d
    ensures NatToString(10 * n) == d + "0"
  {
    assert (10 * n) / 10 == n && (10 * n) % 10 == 0;
  }

  /** A failed write stops the cpu controller: a refused share file means the
      period and quota files are never touched. */
  lemma CpuSetStopsAtFirstFailure(env: Env, s: HostState, dir: string, res: ResourceConfig)
    requires res.cpuShare != "" && PathJoin(dir, "cpu.shares") in env.denied
    ensures var (t, err) := CpuWrites(env, s, dir, res);
      err == Fail(CpuWriteFail + PermissionDenied)
      && t == Log(s, WriteFileAt(PathJoin(dir, "cpu.shares"), res.cpuShare))
  {
  }

  /** The memory and cpuset controllers create the cgroup and write their
      limit verbatim to their one file. */
  lemma SingleFileLimits(env: Env, s: HostState, sub: Subsystem, cgroupPath: string, res: ResourceConfig)
    requires sub != Cpu && MountTableOk(env.mountinfo, sub.Name()) && Configured(sub, res)
    requires var d := CgroupDir(env, sub, cgroupPath);
      Writable(env, d) && ParentPresent(s, d) && !Exists(s, d) && NoDirectoryFiles(s, d)
    ensures var d := CgroupDir(env, sub, cgroupPath);
      var (t, err) := SetSpec(env, s, sub, cgroupPath, res);
      && err == Pass && t.dirs == s.dirs + {d} && NoDirectoryFiles(t, d)
      && (sub == Memory ==> t.files == s.files[PathJoin(d, "memory.limit_in_bytes") := res.memoryLimit])
      && (sub == Cpuset ==> t.files == s.files[PathJoin(d, "cpuset.cpus") := res.cpuSet])
  {
    var d := CgroupDir(env, sub, cgroupPath);
    SetCreatesCgroup(env, s, sub, cgroupPath);
    var s1 := GetCgroupPathSpec(env, s, sub.Name(), cgroupPath, true).0;
    assert "memory.limit_in_bytes" in CgroupFiles && "cpuset.cpus" in CgroupFiles;
    if sub == Memory {
      WriteWrappedStores(env, s1, d, "memory.limit_in_bytes", res.memoryLimit, "set cgroup memory fail ");
    } else {
      WriteWrappedStores(env, s1, d, "cpuset.cpus", res.cpuSet, "set cgroup cpuset fail ");
    }
  }

  /** Apply of a configured controller writes the decimal pid to the `tasks`
      file of an existing cgroup, creating nothing. */
  lemma ApplyWritesPid(env: Env, s: HostState, sub: Subsystem, cgroupPath: string, pid: int, res: ResourceConfig)
    requires MountTableOk(env.mountinfo, sub.Name()) && Configured(sub, res)
    requires var d := CgroupDir(env, sub, cgroupPath);
      d in s.dirs && Writable(env, d) && PathJoin(d, "tasks") !in s.dirs
    ensures var d := CgroupDir(env, sub, cgroupPath);
      var (t, err) := ApplySpec(env, s, sub, cgroupPath, pid, res);
      err == Pass && t.dirs == s.dirs && t.records == s.records && t.files == s.files[PathJoin(d, "tasks") := Itoa(pid)]
  {
    var d := CgroupDir(env, sub, cgroupPath);
    assert "tasks" in CgroupFiles;
    var prefix := if sub == Cpuset then "set cgroup proc fail: " else "set cgroup proc fail ";
    WriteWrappedStores(env, s, d, "tasks", Itoa(pid), prefix);
  }

  /** Removing a cgroup with nothing recorded at or below its directory
      succeeds and changes nothing but the trace. */
  lemma RemoveAbsentCgroup(env: Env, s: HostState, sub: Subsystem, cgroupPath: string)
    requires MountTableOk(env.mountinfo, sub.Name())
    requires CgroupDir(env, sub, cgroupPath) !in env.denied && !Occupied(s, CgroupDir(env, sub, cgroupPath))
    ensures RemoveSpec(env, s, sub, cgroupPath) == (Log(s, RemoveTree(CgroupDir(env, sub, cgroupPath))), Pass)
  {
  }

  /** The memory controller's round of limiting a cgroup, moving a process
      into it, moving it back to the root cgroup and removing the cgroup
      succeeds end to end on a writable host whose memory controller is
      mounted at an existing directory (named without a trailing '/'). */
  lemma MemoryLifecycle(env: Env, s: HostState, pid: int)
    requires MountTableOk(env.mountinfo, "memory")
    requires var root := Mountpoint(env.mountinfo, "memory");
      && root in s.dirs && Writable(env, root) && NoDirectoryFiles(s, root) && root[|root| - 1] != '/'
      && var d := PathJoin(root, "test-memlimit");
         Writable(env, d) && !Exists(s, d) && NoDirectoryFiles(s, d)
    ensures var res := ResourceConfig("1000m", 0, "", "");
      var (s1, e1) := SetSpec(env, s, Memory, "test-memlimit", res);
      var (s2, e2) := ApplySpec(env, s1, Memory, "test-memlimit", pid, res);
      var (s3, e3) := ApplySpec(env, s2, Memory, "", pid, res);
      var (s4, e4) := RemoveSpec(env, s3, Memory, "test-memlimit");
      e1 == Pass && e2 == Pass && e3 == Pass && e4 == Pass
  {
    var res := ResourceConfig("1000m", 0, "", "");
    assert '/' !in "test-memlimit";
    MemorySetStage(env, s, "test-memlimit", res);
    MemoryApplyAndRemove(env, SetSpec(env, s, Memory, "test-memlimit", res).0, "test-memlimit", pid, res);
  }

  /** The Set of the memory round creates the cgroup `cg` directly below an
      existing mount point and leaves the `tasks` files free to be written. */
  lemma MemorySetStage(env: Env, s: HostState, cg: string, res: ResourceConfig)
    requires MountTableOk(env.mountinfo, "memory") && Configured(Memory, res)
    requires cg != "" && '/' !in cg && cg != "tasks"
    requires var root := Mountpoint(env.mountinfo, "memory");
      && root in s.dirs && Writable(env, root) && NoDirectoryFiles(s, root) && root[|root| - 1] != '/'
      && var d := PathJoin(root, cg);
         Writable(env, d) && !Exists(s, d) && NoDirectoryFiles(s, d)
    ensures var root := Mountpoint(env.mountinfo, "memory");
      var d := PathJoin(root, cg);
      var (s1, e1) := SetSpec(env, s, Memory, cg, res);
      && e1 == Pass
      && root in s1.dirs && PathJoin(root, "tasks") !in s1.dirs
      && d in s1.dirs && PathJoin(d, "tasks") !in s1.dirs
      && PathJoin(root, "tasks") != d
  {
    var root := Mountpoint(env.mountinfo, "memory");
    var d := PathJoin(root, cg);
    assert CgroupDir(env, Memory, cg) == d;
    assert ParentPresent(s, d) by { ParentOfJoin(root, cg); }
    SingleFileLimits(env, s, Memory, cg, res);
    assert "tasks" in CgroupFiles && PathJoin(root, "tasks") !in s.dirs;
    assert PathJoin(root, "tasks") != d by {
      assert cg[0] in cg;
      PathJoinDistinct(root, cg, "tasks");
    }
  }

  /** The part of the memory round after Set: both Applies and the removal
      succeed once the cgroup exists. */
  lemma MemoryApplyAndRemove(env: Env, s1: HostState, cg: string, pid: int, res: ResourceConfig)
    requires MountTableOk(env.mountinfo, "memory") && Configured(Memory, res)
    requires var root := Mountpoint(env.mountinfo, "memory");
      var d := PathJoin(root, cg);
      && root in s1.dirs && Writable(env, root) && PathJoin(root, "tasks") !in s1.dirs
      && d in s1.dirs && Writable(env, d) && PathJoin(d, "tasks") !in s1.dirs
      && PathJoin(root, "tasks") != d
    ensures var (s2, e2) := ApplySpec(env, s1, Memory, cg, pid, res);
      var (s3, e3) := ApplySpec(env, s2, Memory, "", pid, res);
      var (s4, e4) := RemoveSpec(env, s3, Memory, cg);
      e2 == Pass && e3 == Pass && e4 == Pass
  {
    var root := Mountpoint(env.mountinfo, "memory");
    ApplyWritesPid(env, s1, Memory, cg, pid, res);
    var s2 := ApplySpec(env, s1, Memory, cg, pid, res).0;
    assert CgroupDir(env, Memory, "") == root;
    ApplyWritesPid(env, s2, Memory, "", pid, res);
  }

  /** A controller only ever touches the file store. */
  lemma ControllerFileStepsOnly(env: Env, s: HostState, sub: Subsystem, cgroupPath: string, pid: int,
                                res: ResourceConfig)
    requires MountTableOk(env.mountinfo, sub.Name())
    ensures FileStepsOnly(s, SetSpec(env, s, sub, cgroupPath, res).0)
    ensures FileStepsOnly(s, ApplySpec(env, s, sub, cgroupPath, pid, res).0)
    ensures FileStepsOnly(s, RemoveSpec(env, s, sub, cgroupPath).0)
  {
    var d := CgroupDir(env, sub, cgroupPath);
    FileCallsLogFileSteps(env, s, d, "tasks", Itoa(pid));
    if Configured(sub, res) {
      var (s1, p, err) := GetCgroupPathSpec(env, s, sub.Name(), cgroupPath, true);
      FileCallsLogFileSteps(env, s, d, "", "");
      assert FileStepsOnly(s, s1);
      if err == Pass {
        match sub
        case Memory =>
          FileCallsLogFileSteps(env, s1, d, "memory.limit_in_bytes", res.memoryLimit);
          FileStepsOnlyTrans(s, s1, SetSpec(env, s, sub, cgroupPath, res).0);
        case Cpuset =>
          FileCallsLogFileSteps(env, s1, d, "cpuset.cpus", res.cpuSet);
          FileStepsOnlyTrans(s, s1, SetSpec(env, s, sub, cgroupPath, res).0);
        case Cpu =>
          CpuWritesFileStepsOnly(env, s1, d, res);
          FileStepsOnlyTrans(s, s1, SetSpec(env, s, sub, cgroupPath, res).0);
      }
    }
  }

  lemma CpuWritesFileStepsOnly(env: Env, s: HostState, dir: string, res: ResourceConfig)
    ensures FileStepsOnly(s, CpuWrites(env, s, dir, res).0)
  {
    var s1 := if res.cpuShare != "" then WriteWrapped(env, s, dir, "cpu.shares", res.cpuShare, CpuWriteFail).0 else s;
    FileCallsLogFileSteps(env, s, dir, "cpu.shares", res.cpuShare);
    assert FileStepsOnly(s, s1);
    var s2 := WriteWrapped(env, s1, dir, "cpu.cfs_period_us", Itoa(PeriodDefault), CpuWriteFail).0;
    FileCallsLogFileSteps(env, s1, dir, "cpu.cfs_period_us", Itoa(PeriodDefault));
    FileStepsOnlyTrans(s, s1, s2);
    FileCallsLogFileSteps(env, s2, dir, "cpu.cfs_quota_us", QuotaMicros(res.cpuCfsQuota));
    FileStepsOnlyTrans(s, s2, WriteWrapped(env, s2, dir, "cpu.cfs_quota_us", QuotaMicros(res.cpuCfsQuota), CpuWriteFail).0);
  }
}
