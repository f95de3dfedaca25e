/** container/init.go: the first process inside the container. It makes the
    mount namespace private, mounts /proc, reads the user command from the
    pipe the parent writes, resolves the program and replaces itself with
    it. */
module InitProcess {
  import opened Wrappers
  import opened Text
  import opened Platform
  import opened HostOs

  /** `syscall.MS_PRIVATE|syscall.MS_REC`; the bits are distinct, so `|` is `+`. */
  const PrivateRecFlags: int := MsPrivate + MsRec
  /** `MS_NOEXEC|MS_NOSUID|MS_NODEV`, the flags of the /proc mount. */
  const ProcMountFlags: int := MsNoExec + MsNoSuid + MsNoDev

  const NilCommand: string := "run command in container err, command is nil"

  /** `readUserCommand`: the whole pipe message split at single spaces;
      `None` when reading the pipe fails (`pipe` is `None`). */
  function ReadUserCommand(pipe: Option<string>): (command: Option<seq<string>>)
    ensures command.None? <==> pipe.None?
    ensures command.Some? ==> |command.value| >= 1 && forall i :: 0 <= i < |command.value| ==> ' ' !in command.value[i]
    ensures command.Some? ==> Join(command.value, " ") == pipe.value
  {
    match pipe
    case None => None
    case Some(msg) =>
      JoinSplit(msg, ' ');
      Some(Split(msg, ' '))
  }

  /** `exec.LookPath` against a table of the programs on $PATH: a name
      absent from it (and the empty name) is not found. */
  function LookPath(programs: map<string, string>, file: string): (r: Result<string>)
    ensures r.Ok? <==> file != "" && file in programs
  {
    if file != "" && file in programs then Ok(programs[file])
    else Err("exec: \"" + file + "\": executable file not found in $PATH")
  }

  /** `mountProc`: the steps it logs. Both mounts are attempted and their
      errors ignored. */
  function MountProcSteps(): seq<Action>
  {
    [SysMount("", "/", "", PrivateRecFlags), SysMount("proc", "/proc", "proc", ProcMountFlags)]
  }

  /** `RunContainerInitProcess`: the mounts, then the command, then the exec
      of the resolved program with the remaining words as its argv. A failed
      exec is only logged. */
  function RunContainerInitProcessSpec(s: HostState, pipe: Option<string>, programs: map<string, string>)
    : (HostState, Outcome)
  {
    var s1 := s.(trace := s.trace + MountProcSteps());
    match ReadUserCommand(pipe)
    case None => (s1, Fail(NilCommand))
    case Some(command) =>
      match LookPath(programs, command[0])
      case Err(msg) => (s1, Fail(msg))
      case Ok(path) => (Log(s1, ExecCommand(path, command[1..])), Pass)
  }

  method MountProc(h: Host)
    modifies h
    ensures h.Snapshot() == old(h.Snapshot()).(trace := old(h.trace) + MountProcSteps())
  {
    h.Run(SysMount("", "/", "", MsPrivate + MsRec));
    var defaultMountFlags := MsNoExec + MsNoSuid + MsNoDev;
    h.Run(SysMount("proc", "/proc", "proc", defaultMountFlags));
  }

  method RunContainerInitProcess(h: Host, pipe: Option<string>, programs: map<string, string>) returns (err: Outcome)
    modifies h
    ensures (h.Snapshot(), err) == RunContainerInitProcessSpec(old(h.Snapshot()), pipe, programs)
  {
    MountProc(h);
    var command := ReadUserCommand(pipe);
    if command.None? {
      return Fail(NilCommand);
    }
    var path := LookPath(programs, command.value[0]);
    if path.Err? {
      return Fail(path.msg);
    }
    h.Run(ExecCommand(path.value, command.value[1..]));
    return Pass;
  }

  // ---------------------------------------------------------------------
  // What the init process promises.

  /** The command the parent sends (its words joined with single spaces) is
      the command the child reads, whenever there is at least one word and
      no word holds a space. */
  lemma CommandHandOff(args: seq<string>)
    requires |args| >= 1 && forall i :: 0 <= i < |args| ==> ' ' !in args[i]
    ensures ReadUserCommand(Some(Join(args, " "))) == Some(args)
  {
    SplitJoin(args, ' ');
  }

  /** /proc is mounted, after the namespace is made private, before anything
      else happens; a program that resolves is executed with the words after
      its name as argv and the init process reports success. */
  lemma InitStepOrder(s: HostState, args: seq<string>, programs: map<string, string>)
    requires |args| >= 1 && forall i :: 0 <= i < |args| ==> ' ' !in args[i]
    requires args[0] != "" && args[0] in programs
    ensures RunContainerInitProcessSpec(s, Some(Join(args, " ")), programs)
            == (s.(trace := s.trace + [SysMount("", "/", "", 278528), SysMount("proc", "/proc", "proc", 14),
                                       ExecCommand(programs[args[0]], args[1..])]), Pass)
  {
    var msg := Join(args, " ");
    CommandHandOff(args);
    InitRunsCommand(s, msg, args, programs);
    MountProcFlags();
    var m0, m1 := SysMount("", "/", "", 278528), SysMount("proc", "/proc", "proc", 14);
    var exec := ExecCommand(programs[args[0]], args[1..]);
    assert s.trace + [m0, m1] + [exec] == s.trace + [m0, m1, exec];
  }

  /** Once the pipe message reads as `command` and its program resolves, the
      init process logs the two mounts and then the exec. */
  lemma InitRunsCommand(s: HostState, msg: string, command: seq<string>, programs: map<string, string>)
    requires ReadUserCommand(Some(msg)) == Some(command)
    requires command[0] != "" && command[0] in programs
    ensures RunContainerInitProcessSpec(s, Some(msg), programs)
            == (s.(trace := s.trace + MountProcSteps() + [ExecCommand(programs[command[0]], command[1..])]), Pass)
  {
  }

  /** The two mounts' flags as numbers: 0x44000 and 0xe. */
  lemma MountProcFlags()
    ensures MountProcSteps() == [SysMount("", "/", "", 278528), SysMount("proc", "/proc", "proc", 14)]
  {
  }

  /** A failed pipe read and an unknown program both end the init process
      with an error after the mounts and before any exec; an empty message
      reads as the one empty word, which never resolves. */
  lemma InitFailures(s: HostState, programs: map<string, string>, msg: string)
    ensures RunContainerInitProcessSpec(s, None, programs)
            == (s.(trace := s.trace + MountProcSteps()), Fail(NilCommand))
    ensures ReadUserCommand(Some("")) == Some([""])
    ensures var (t, err) := RunContainerInitProcessSpec(s, Some(""), programs);
      err.Fail? && t.trace == s.trace + MountProcSteps()
    ensures var first := Split(msg, ' ')[0];
      (first == "" || first !in programs)
      ==> RunContainerInitProcessSpec(s, Some(msg), programs).1.Fail?
  {
  }
}
