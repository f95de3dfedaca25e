/** stop.go and run.go: stopping and removing a container through its stored
    record, and the parent side of `run` — start the child, limit it with
    cgroups, connect it, record it, hand it its command, and in the
    foreground wait for it and clean up. */
module Lifecycle {
  import opened Wrappers
  import opened Text
  import opened Platform
  import opened HostOs
  import opened ContainerInfo
  import opened Subsystems
  import opened CgroupManagers
  import opened Workspace
  import opened Records
  import opened Utils
  import opened OverlayPaths
  import InitProcess

  // ---------------------------------------------------------------------
  // stop

  /** `stopContainer`: read the record, parse its pid, send SIGTERM, then
      write the record back stopped and without a pid. A failed kill and a
      failed rewrite are only logged: the call still succeeds. */
  function StopSpec(env: Env, s: HostState, containerId: string): (HostState, Outcome)
  {
    match LoadRecordSpec(env, s, containerId)
    case Err(msg) => (s, Fail(msg))
    case Ok(info) =>
      match Atoi(info.pid)
      case Err(msg) => (s, Fail(msg))
      case Ok(pid) =>
        var s1 := Log(s, SignalTerm(pid));
        (SaveRecordSpec(env, s1, containerId, info.(status := Stopped, pid := "")).0, Pass)
  }

  method StopContainer(h: Host, containerId: string) returns (err: Outcome)
    modifies h
    ensures (h.Snapshot(), err) == StopSpec(h.env, old(h.Snapshot()), containerId)
  {
    var containerInfo := h.LoadRecord(containerId);
    if containerInfo.Err? {
      return Fail(containerInfo.msg);
    }
    var pidInt := Atoi(containerInfo.value.pid);
    if pidInt.Err? {
      return Fail(pidInt.msg);
    }
    h.Run(SignalTerm(pidInt.value));
    var info := containerInfo.value.(status := Stopped, pid := "");
    var e := h.SaveRecord(containerId, info);
    return Pass;
  }

  // ---------------------------------------------------------------------
  // rm

  /** The `STOP` branch of `removeContainer`: the record's directory goes,
      and only when that worked, the workspace built on the stored volume. */
  function RemoveStoppedSpec(env: Env, s: HostState, containerId: string, volume: string): HostState
  {
    var (s1, err) := DeleteContainerInfoSpec(env, s, containerId);
    if err.Fail? then s1 else DeleteWorkSpaceSpec(env, s1, containerId, volume)
  }

  /** `removeContainer` as it is meant to behave: a forced removal of a
      running container stops it and then removes it as a stopped one. The
      recursive call is made without force, so a stop whose rewrite did not
      land ends with the record still running instead of stopping it again. */
  function RemoveContainerSpec(env: Env, s: HostState, containerId: string, force: bool): HostState
    decreases if force then 1 else 0
  {
    match LoadRecordSpec(env, s, containerId)
    case Err(_) => s
    case Ok(info) =>
      if info.status == Stopped then RemoveStoppedSpec(env, s, containerId, info.volume)
      else if info.status == Running then
        if !force then s
        else
          var (s1, err) := StopSpec(env, s, containerId);
          if err.Fail? then s1 else RemoveContainerSpec(env, s1, containerId, false)
      else s
  }

  /** `removeContainer` as written: the recursive call keeps `force`. `fuel`
      bounds the number of recursive calls; `None` means it ran out. */
  function RemoveContainerAsWritten(env: Env, s: HostState, containerId: string, force: bool, fuel: nat)
    : Option<HostState>
    decreases fuel
  {
    match LoadRecordSpec(env, s, containerId)
    case Err(_) => Some(s)
    case Ok(info) =>
      if info.status == Stopped then Some(RemoveStoppedSpec(env, s, containerId, info.volume))
      else if info.status == Running then
        if !force then Some(s)
        else
          var (s1, err) := StopSpec(env, s, containerId);
          if err.Fail? then Some(s1)
          else if fuel == 0 then None
          else RemoveContainerAsWritten(env, s1, containerId, force, fuel - 1)
      else Some(s)
  }

  method RemoveContainer(h: Host, containerId: string, force: bool)
    modifies h
    ensures h.Snapshot() == RemoveContainerSpec(h.env, old(h.Snapshot()), containerId, force)
    decreases if force then 1 else 0
  {
    var containerInfo := h.LoadRecord(containerId);
    if containerInfo.Err? {
      return;
    }
    var info := containerInfo.value;
    if info.status == Stopped {
      var err := DeleteContainerInfo(h, containerId);
      if err.Fail? {
        return;
      }
      DeleteWorkSpace(h, containerId, info.volume);
    } else if info.status == Running {
      if !force {
        return;
      }
      var err := StopContainer(h, containerId);
      if err.Fail? {
        return;
      }
      RemoveContainer(h, containerId, false);
    }
  }

  // ---------------------------------------------------------------------
  // run

  /** The cgroup every container is placed in. */
  const CgroupName: string := "tiny-docker"

  /** `Run`'s parameters that the modelled steps use. */
  datatype RunArgs = RunArgs(
    tty: bool,
    cmdArr: seq<string>,
    res: ResourceConfig,
    volume: string,
    containerName: string,
    net: string,
    portMapping: seq<string>)

  /** What the outside world decides during `Run`: whether the parent
      process could be built and started, the child's pid, the address
      `network.Connect` hands out (or its error), and the creation time. */
  datatype Launch = Launch(
    parentOk: bool,
    startOk: bool,
    pid: int,
    connect: Result<string>,
    createdTime: string)

  /** How `Run` ends: it returns, or it dereferences the nil process of a
      child that failed to start. */
  datatype RunEnd = Returned | Crashed

  /** `sendInitCommand`: the words joined with single spaces, then the
      write end closed. */
  function SendInitCommandSteps(cmdArr: seq<string>): seq<Action>
  {
    [PipeWrite(Join(cmdArr, " ")), PipeClose]
  }

  /** The host when `Run` reaches the record: limits set, the pid applied,
      and the network connected when one is named. */
  function BeforeRecordSpec(env: Env, s: HostState, a: RunArgs, o: Launch): HostState
    requires MountsOk(env, SubsystemsIns)
  {
    var s1 := ManagerSetSpec(env, s, SubsystemsIns, CgroupName, a.res);
    var s2 := ManagerApplySpec(env, s1, SubsystemsIns, CgroupName, o.pid, a.res);
    if a.net != "" then Log(s2, NetConnect(a.net)) else s2
  }

  /** The container's address: the one handed out, or none without a network. */
  function ContainerIp(a: RunArgs, o: Launch): string
  {
    if a.net != "" && o.connect.Ok? then o.connect.value else ""
  }

  /** `RecordContainerInfo` at the point `Run` calls it. */
  function RecordAttempt(env: Env, s: HostState, a: RunArgs, containerId: string, o: Launch)
    : (HostState, Result<Info>)
    requires MountsOk(env, SubsystemsIns)
  {
    RecordContainerInfoSpec(env, BeforeRecordSpec(env, s, a, o), o.pid, a.cmdArr, a.containerName, containerId,
                            a.volume, a.net, a.portMapping, ContainerIp(a, o), o.createdTime)
  }

  /** What follows a written record: the command is sent; in the foreground
      the parent waits, deletes the workspace and the record, and
      disconnects the network when one is named. */
  function AfterRecordSpec(env: Env, s: HostState, a: RunArgs, containerId: string): HostState
  {
    var s1 := s.(trace := s.trace + SendInitCommandSteps(a.cmdArr));
    if !a.tty then s1
    else
      var s2 := DeleteWorkSpaceSpec(env, Log(s1, WaitChild), containerId, a.volume);
      var s3 := DeleteContainerInfoSpec(env, s2, containerId).0;
      if a.net != "" then Log(s3, NetDisconnect(a.net)) else s3
  }

  /** `Run` from the cgroup setup to its last step before the deferred
      Destroy, with its two early returns. */
  function RunBodySpec(env: Env, s: HostState, a: RunArgs, containerId: string, o: Launch): HostState
    requires MountsOk(env, SubsystemsIns)
  {
    if a.net != "" && o.connect.Err? then BeforeRecordSpec(env, s, a, o)
    else
      var (s1, r) := RecordAttempt(env, s, a, containerId, o);
      if r.Err? then s1 else AfterRecordSpec(env, s1, a, containerId)
  }

  /** `Run`. Without a parent process it returns at once. A child that
      failed to start leaves no process: its pid is read right after the
      limits are set, before Destroy is deferred, and `Run` crashes there.
      Otherwise every return passes through the deferred Destroy. */
  function RunSpec(env: Env, s: HostState, a: RunArgs, containerId: string, o: Launch): (HostState, RunEnd)
    requires MountsOk(env, SubsystemsIns)
  {
    if !o.parentOk then (s, Returned)
    else
      var s1 := Log(s, StartChild);
      if !o.startOk then (ManagerSetSpec(env, s1, SubsystemsIns, CgroupName, a.res), Crashed)
      else (ManagerDestroySpec(env, RunBodySpec(env, s1, a, containerId, o), SubsystemsIns, CgroupName), Returned)
  }

  method SendInitCommand(h: Host, comArr: seq<string>)
    modifies h
    ensures h.Snapshot() == old(h.Snapshot()).(trace := old(h.trace) + SendInitCommandSteps(comArr))
  {
    var command := Join(comArr, " ");
    h.Run(PipeWrite(command));
    h.Run(PipeClose);
  }

  /** `Run`; `draws` are the random choices behind the container id, which
      is returned so that the contract can name it. */
  method Run(h: Host, a: RunArgs, draws: seq<int>, o: Launch) returns (containerId: string, end: RunEnd)
    requires |draws| == IdLength && forall i :: 0 <= i < IdLength ==> 0 <= draws[i] < 9
    requires MountsOk(h.env, SubsystemsIns)
    modifies h
    ensures |containerId| == IdLength
    ensures (h.Snapshot(), end) == RunSpec(h.env, old(h.Snapshot()), a, containerId, o)
  {
    containerId := GenerateContainerID(draws);
    if !o.parentOk {
      return containerId, Returned;
    }
    h.Run(StartChild);
    var cgroupManager := new CgroupManager(CgroupName);
    var setErr := cgroupManager.Set(h, a.res);
    if !o.startOk {
      return containerId, Crashed;
    }
    var applyErr := cgroupManager.Apply(h, o.pid, a.res);
    var containerIp := "";
    if a.net != "" {
      h.Run(NetConnect(a.net));
      if o.connect.Err? {
        var destroyErr := cgroupManager.Destroy(h);
        return containerId, Returned;
      }
      containerIp := o.connect.value;
    }
    var containerInfo := RecordContainerInfo(h, o.pid, a.cmdArr, a.containerName, containerId, a.volume, a.net,
                                             a.portMapping, containerIp, o.createdTime);
    if containerInfo.Err? {
      var destroyErr := cgroupManager.Destroy(h);
      return containerId, Returned;
    }
    SendInitCommand(h, a.cmdArr);
    if a.tty {
      h.Run(WaitChild);
      DeleteWorkSpace(h, containerId, a.volume);
      var deleteErr := DeleteContainerInfo(h, containerId);
      if a.net != "" {
        h.Run(NetDisconnect(a.net));
      }
    }
    var destroyErr := cgroupManager.Destroy(h);
    return containerId, Returned;
  }

  // ---------------------------------------------------------------------
  // What stopping promises.

  /** A stop of a record with a numeric pid succeeds: it signals that pid,
      then rewrites the record. When the rewrite lands the record is
      stopped, has no pid and keeps every other field; when it is refused
      nothing but the trace changes. No directory or file changes, and no
      other record. */
  lemma StopMarksStopped(env: Env, s: HostState, containerId: string)
    requires containerId in s.records && ConfigPath(containerId) !in env.denied
    requires Atoi(s.records[containerId].pid).Ok?
    ensures var (t, err) := StopSpec(env, s, containerId);
      var info := s.records[containerId];
      var lands := InfoDir(containerId) in s.dirs && ConfigPath(containerId) !in env.readOnly;
      && err == Pass
      && t.trace == s.trace + [SignalTerm(Atoi(info.pid).value), SaveRecordAt(ConfigPath(containerId))]
      && t.dirs == s.dirs && t.files == s.files
      && (lands ==> t.records == s.records[containerId := info.(status := Stopped, pid := "")])
      && (!lands ==> t.records == s.records)
  {
  }

  /** A record that cannot be read, or whose pid is not a number, makes the
      stop fail with that error and change nothing. */
  lemma StopRefusals(env: Env, s: HostState, containerId: string)
    ensures LoadRecordSpec(env, s, containerId).Err?
            ==> StopSpec(env, s, containerId) == (s, Fail(LoadRecordSpec(env, s, containerId).msg))
    ensures (LoadRecordSpec(env, s, containerId).Ok? && Atoi(LoadRecordSpec(env, s, containerId).value.pid).Err?)
            ==> StopSpec(env, s, containerId).0 == s && StopSpec(env, s, containerId).1.Fail?
  {
  }

  /** A container stopped once cannot be stopped again: its pid is now
      empty, which does not parse, so the second stop fails and changes
      nothing. */
  lemma StopTwiceFails(env: Env, s: HostState, containerId: string)
    requires containerId in s.records && ConfigPath(containerId) !in env.denied
    requires Atoi(s.records[containerId].pid).Ok?
    requires InfoDir(containerId) in s.dirs && ConfigPath(containerId) !in env.readOnly
    ensures var t := StopSpec(env, s, containerId).0;
      StopSpec(env, t, containerId).0 == t && StopSpec(env, t, containerId).1.Fail?
  {
    var t := StopSpec(env, s, containerId).0;
    StopMarksStopped(env, s, containerId);
    assert t.records[containerId].pid == "";
    assert Atoi("").Err?;
  }

  // ---------------------------------------------------------------------
  // What removing promises.

  /** `os.RemoveAll` in turn never adds a record. */
  lemma {:induction false} RemoveAllEachAddsNoRecord(env: Env, s: HostState, paths: seq<string>)
    ensures RemoveAllEach(env, s, paths).records.Keys <= s.records.Keys
  {
    if paths != [] {
      RemoveAllEachAddsNoRecord(env, s, paths[..|paths| - 1]);
    }
  }

  /** Removing a workspace never adds a record. */
  lemma DeleteWorkSpaceAddsNoRecord(env: Env, s: HostState, containerId: string, volume: string)
    ensures DeleteWorkSpaceSpec(env, s, containerId, volume).records.Keys <= s.records.Keys
  {
    var (_, containerPath, err) := VolumeExtract(volume);
    if !(volume != "" && err.Fail?) {
      var s1 := if volume != "" then Log(s, Unmount(PathJoin(GetMerged(containerId), containerPath))) else s;
      RemoveAllEachAddsNoRecord(env, Log(s1, Unmount(GetMerged(containerId))), DeleteList(containerId));
    }
  }

  /** Removing a workspace only appends to the trace. */
  lemma DeleteWorkSpaceExtends(env: Env, s: HostState, containerId: string, volume: string)
    ensures var t := DeleteWorkSpaceSpec(env, s, containerId, volume);
      |s.trace| <= |t.trace| && t.trace[..|s.trace|] == s.trace
  {
    var (_, containerPath, err) := VolumeExtract(volume);
    if !(volume != "" && err.Fail?) {
      var s1 := if volume != "" then Log(s, Unmount(PathJoin(GetMerged(containerId), containerPath))) else s;
      var s2 := Log(s1, Unmount(GetMerged(containerId)));
      RemoveAllEachTrace(env, s2, DeleteList(containerId));
      assert (s2.trace + RemoveAllSteps(DeleteList(containerId)))[..|s.trace|] == s.trace;
    }
  }

  /** A record that cannot be read, a running container without force, and
      any status other than running or stopped (an exited container, say)
      leave the host as it was. */
  lemma RemoveRefusals(env: Env, s: HostState, containerId: string, force: bool)
    ensures LoadRecordSpec(env, s, containerId).Err? ==> RemoveContainerSpec(env, s, containerId, force) == s
    ensures (LoadRecordSpec(env, s, containerId).Ok? && LoadRecordSpec(env, s, containerId).value.status == Running
             && !force) ==> RemoveContainerSpec(env, s, containerId, force) == s
    ensures (LoadRecordSpec(env, s, containerId).Ok?
             && LoadRecordSpec(env, s, containerId).value.status != Running
             && LoadRecordSpec(env, s, containerId).value.status != Stopped)
            ==> RemoveContainerSpec(env, s, containerId, force) == s
  {
  }

  /** Removing a stopped container first removes its record directory. If
      that fails, nothing else happens; otherwise the record is gone and the
      workspace built on the stored volume is deleted. Records are taken to
      sit in their directories, as the store keeps them. */
  lemma RemoveStoppedContainer(env: Env, s: HostState, containerId: string, force: bool)
    requires Consistent(s) && containerId in s.records && ConfigPath(containerId) !in env.denied
    requires s.records[containerId].status == Stopped
    ensures var t := RemoveContainerSpec(env, s, containerId, force);
      var (s1, err) := DeleteContainerInfoSpec(env, s, containerId);
      && |t.trace| > |s.trace| && t.trace[|s.trace|] == RemoveTree(InfoDir(containerId))
      && (err.Fail? ==> t == s1)
      && (err == Pass ==> t == DeleteWorkSpaceSpec(env, s1, containerId, s.records[containerId].volume)
                          && containerId !in t.records)
  {
    var (s1, err) := DeleteContainerInfoSpec(env, s, containerId);
    var t := RemoveContainerSpec(env, s, containerId, force);
    assert s1.trace == s.trace + [RemoveTree(InfoDir(containerId))];
    if err == Pass {
      var v := s.records[containerId].volume;
      ConfigUnderInfoDir(containerId);
      assert containerId !in s1.records;
      DeleteWorkSpaceAddsNoRecord(env, s1, containerId, v);
      DeleteWorkSpaceExtends(env, s1, containerId, v);
      assert t == DeleteWorkSpaceSpec(env, s1, containerId, v);
      assert t.trace[|s.trace|] == t.trace[..|s1.trace|][|s.trace|];
    }
  }

  /** A forced removal of a running container whose rewrite lands stops it
      and then removes it as a stopped container. */
  lemma ForceRemoveRunning(env: Env, s: HostState, containerId: string)
    requires containerId in s.records && ConfigPath(containerId) !in env.denied
    requires s.records[containerId].status == Running && Atoi(s.records[containerId].pid).Ok?
    requires InfoDir(containerId) in s.dirs && ConfigPath(containerId) !in env.readOnly
    ensures var s1 := StopSpec(env, s, containerId).0;
      && s1.records[containerId] == s.records[containerId].(status := Stopped, pid := "")
      && RemoveContainerSpec(env, s, containerId, true)
         == RemoveStoppedSpec(env, s1, containerId, s.records[containerId].volume)
  {
    StopMarksStopped(env, s, containerId);
  }

  // ---------------------------------------------------------------------
  // The unbounded forced removal, and its correction.

  /** As written, a forced removal of a running container whose stopped
      record cannot be written back never ends: each round reads the same
      running record, signals it again and recurses with force, so no bound
      on the recursion is enough. */
  lemma {:induction false} RemoveLoopsOnRefusedRewrite(env: Env, s: HostState, containerId: string, fuel: nat)
    requires containerId in s.records && ConfigPath(containerId) !in env.denied
    requires s.records[containerId].status == Running && Atoi(s.records[containerId].pid).Ok?
    requires InfoDir(containerId) !in s.dirs || ConfigPath(containerId) in env.readOnly
    ensures RemoveContainerAsWritten(env, s, containerId, true, fuel) == None
    decreases fuel
  {
    StopMarksStopped(env, s, containerId);
    if fuel > 0 {
      RemoveLoopsOnRefusedRewrite(env, StopSpec(env, s, containerId).0, containerId, fuel - 1);
    }
  }

  /** The corrected removal, in the same situation, signals the container
      once and stops: the running record stays and nothing is removed. */
  lemma CorrectedRemoveStopsOnce(env: Env, s: HostState, containerId: string)
    requires containerId in s.records && ConfigPath(containerId) !in env.denied
    requires s.records[containerId].status == Running && Atoi(s.records[containerId].pid).Ok?
    requires InfoDir(containerId) !in s.dirs || ConfigPath(containerId) in env.readOnly
    ensures var t := RemoveContainerSpec(env, s, containerId, true);
      && t.records == s.records && t.dirs == s.dirs && t.files == s.files
      && t.trace == s.trace + [SignalTerm(Atoi(s.records[containerId].pid).value), SaveRecordAt(ConfigPath(containerId))]
  {
    StopMarksStopped(env, s, containerId);
  }

  /** Wherever the rewrite of the record lands, the code as written and the
      corrected removal agree, with a single recursive call. */
  lemma AsWrittenAgreesWhenRewriteLands(env: Env, s: HostState, containerId: string, force: bool, fuel: nat)
    requires fuel >= 1
    requires InfoDir(containerId) in s.dirs && ConfigPath(containerId) !in env.readOnly
    ensures RemoveContainerAsWritten(env, s, containerId, force, fuel) == Some(RemoveContainerSpec(env, s, containerId, force))
  {
    var r := LoadRecordSpec(env, s, containerId);
    if r.Ok? && r.value.status == Running && force && Atoi(r.value.pid).Ok? {
      StopMarksStopped(env, s, containerId);
      var s1 := StopSpec(env, s, containerId).0;
      assert LoadRecordSpec(env, s1, containerId) == Ok(r.value.(status := Stopped, pid := ""));
    }
  }

  // ---------------------------------------------------------------------
  // What running promises.

  /** `t`'s trace is `s`'s with steps appended. */
  predicate Extends(s: HostState, t: HostState)
  {
    |s.trace| <= |t.trace| && t.trace[..|s.trace|] == s.trace
  }

  /** Handing the command over, or waiting for the child. */
  predicate CommandStep(a: Action)
  {
    a.PipeWrite? || a.PipeClose? || a.WaitChild?
  }

  /** `t` continues `s` without a command step, and without a record write
      when `noRecord` holds. */
  predicate QuietSince(s: HostState, t: HostState, noRecord: bool)
  {
    Extends(s, t)
    && forall i :: |s.trace| <= i < |t.trace| ==> !CommandStep(t.trace[i]) && (noRecord ==> !t.trace[i].SaveRecordAt?)
  }

  lemma ExtendsTrans(s: HostState, t: HostState, u: HostState)
    requires Extends(s, t) && Extends(t, u)
    ensures Extends(s, u)
  {
    assert u.trace[..|s.trace|] == u.trace[..|t.trace|][..|s.trace|];
  }

  lemma QuietTrans(s: HostState, t: HostState, u: HostState, noRecord: bool)
    requires QuietSince(s, t, noRecord) && QuietSince(t, u, noRecord)
    ensures QuietSince(s, u, noRecord)
  {
    ExtendsTrans(s, t, u);
    forall i | |s.trace| <= i < |u.trace|
      ensures !CommandStep(u.trace[i]) && (noRecord ==> !u.trace[i].SaveRecordAt?)
    {
      if i < |t.trace| {
        assert u.trace[i] == u.trace[..|t.trace|][i];
      }
    }
  }

  /** File-store steps and one logged step other than a command step are quiet. */
  lemma QuietSteps(s: HostState, t: HostState, a: Action, noRecord: bool)
    requires !CommandStep(a) && (noRecord ==> !a.SaveRecordAt?)
    ensures FileStepsOnly(s, t) ==> QuietSince(s, t, noRecord)
    ensures QuietSince(s, Log(s, a), noRecord)
  {
    assert Log(s, a).trace[..|s.trace|] == s.trace;
  }

  /** Up to the record, `Run` neither writes a record nor hands over the
      command: it only sets limits, applies the pid and connects. */
  lemma BeforeRecordQuiet(env: Env, s: HostState, a: RunArgs, o: Launch)
    requires MountsOk(env, SubsystemsIns)
    ensures QuietSince(s, BeforeRecordSpec(env, s, a, o), true)
  {
    var s1 := ManagerSetSpec(env, s, SubsystemsIns, CgroupName, a.res);
    var s2 := ManagerApplySpec(env, s1, SubsystemsIns, CgroupName, o.pid, a.res);
    ManagerFileStepsOnly(env, s, SubsystemsIns, CgroupName, o.pid, a.res);
    ManagerFileStepsOnly(env, s1, SubsystemsIns, CgroupName, o.pid, a.res);
    QuietSteps(s, s1, NetConnect(a.net), true);
    QuietSteps(s1, s2, NetConnect(a.net), true);
    QuietTrans(s, s1, s2, true);
    QuietSteps(s2, s2, NetConnect(a.net), true);
    if a.net != "" {
      QuietTrans(s, s2, Log(s2, NetConnect(a.net)), true);
    }
  }

  /** Writing the record makes its directory, then, unless that failed,
      writes the record; a success means both steps were logged. */
  lemma RecordSteps(env: Env, s: HostState, containerPid: int, commandArray: seq<string>,
                    containerName: string, containerId: string, volume: string, network: string,
                    portMapping: seq<string>, ip: string, createdTime: string)
    ensures var (t, r) := RecordContainerInfoSpec(env, s, containerPid, commandArray, containerName, containerId,
                                                  volume, network, portMapping, ip, createdTime);
      && QuietSince(s, t, false)
      && (r.Ok? ==> t.trace == s.trace + [MakeDirAll(InfoDir(containerId)), SaveRecordAt(ConfigPath(containerId))])
  {
    var info := NewInfo(containerPid, commandArray, containerName, containerId, volume, network, portMapping, ip,
                        createdTime);
    var (t, r) := RecordContainerInfoSpec(env, s, containerPid, commandArray, containerName, containerId,
                                          volume, network, portMapping, ip, createdTime);
    var (s1, e1) := MkdirAllSpec(env, s, InfoDir(containerId));
    assert s1.trace == s.trace + [MakeDirAll(InfoDir(containerId))];
    var s2 := SaveRecordSpec(env, s1, containerId, info).0;
    assert s2.trace == s1.trace + [SaveRecordAt(ConfigPath(containerId))];
    assert t == s1 || t == s2;
    assert t.trace[..|s.trace|] == s.trace;
  }

  /** Without a parent process `Run` does nothing. */
  lemma RunWithoutParent(env: Env, s: HostState, a: RunArgs, containerId: string, o: Launch)
    requires MountsOk(env, SubsystemsIns) && !o.parentOk
    ensures RunSpec(env, s, a, containerId, o) == (s, Returned)
  {
  }

  /** A child that failed to start is logged and `Run` carries on into the
      limits, then crashes on the missing process: only the start and
      file-store steps are logged, so no record is written, no command sent
      and no cgroup removed. */
  lemma RunStartFailureCrashes(env: Env, s: HostState, a: RunArgs, containerId: string, o: Launch)
    requires MountsOk(env, SubsystemsIns) && o.parentOk && !o.startOk
    ensures var (t, end) := RunSpec(env, s, a, containerId, o);
      && end == Crashed
      && |t.trace| > |s.trace| && t.trace[|s.trace|] == StartChild
      && FileStepsOnly(Log(s, StartChild), t)
      && QuietSince(s, t, true)
  {
    var s1 := Log(s, StartChild);
    var t := ManagerSetSpec(env, s1, SubsystemsIns, CgroupName, a.res);
    ManagerFileStepsOnly(env, s1, SubsystemsIns, CgroupName, o.pid, a.res);
    QuietSteps(s, s1, StartChild, true);
    QuietSteps(s1, t, StartChild, true);
    QuietTrans(s, s1, t, true);
    assert t.trace[|s.trace|] == t.trace[..|s1.trace|][|s.trace|];
  }

  /** Every run whose child started ends through the deferred Destroy:
      each controller's cgroup directory that does not refuse removal is
      gone, whichever way `Run` returned. */
  lemma RunDestroysCgroups(env: Env, s: HostState, a: RunArgs, containerId: string, o: Launch)
    requires MountsOk(env, SubsystemsIns) && o.parentOk && o.startOk
    ensures var (t, end) := RunSpec(env, s, a, containerId, o);
      && end == Returned
      && forall k :: 0 <= k < |SubsystemsIns| ==> Cleared(env, t, SubsystemsIns[k], CgroupName)
  {
    ManagerDestroyReachesEvery(env, RunBodySpec(env, Log(s, StartChild), a, containerId, o), SubsystemsIns, CgroupName);
  }

  /** A failed connect returns before anything is recorded or sent; a failed
      record returns before the command is sent. */
  lemma RunEarlyReturns(env: Env, s: HostState, a: RunArgs, containerId: string, o: Launch)
    requires MountsOk(env, SubsystemsIns) && o.parentOk && o.startOk
    ensures var t := RunSpec(env, s, a, containerId, o).0;
      && (a.net != "" && o.connect.Err? ==> QuietSince(s, t, true))
      && ((a.net == "" || o.connect.Ok?) && RecordAttempt(env, Log(s, StartChild), a, containerId, o).1.Err?
          ==> QuietSince(s, t, false))
  {
    var s1 := Log(s, StartChild);
    var b := BeforeRecordSpec(env, s1, a, o);
    var body := RunBodySpec(env, s1, a, containerId, o);
    var t := ManagerDestroySpec(env, body, SubsystemsIns, CgroupName);
    QuietSteps(s, s1, StartChild, true);
    QuietSteps(s, s1, StartChild, false);
    BeforeRecordQuiet(env, s1, a, o);
    QuietTrans(s, s1, b, true);
    ManagerFileStepsOnly(env, body, SubsystemsIns, CgroupName, o.pid, a.res);
    QuietSteps(body, t, StartChild, true);
    QuietSteps(body, t, StartChild, false);
    if a.net != "" && o.connect.Err? {
      QuietTrans(s, b, t, true);
    } else if RecordAttempt(env, s1, a, containerId, o).1.Err? {
      RecordSteps(env, b, o.pid, a.cmdArr, a.containerName, containerId, a.volume, a.net, a.portMapping,
                  ContainerIp(a, o), o.createdTime);
      assert QuietSince(s, b, false);
      QuietTrans(s, b, body, false);
      QuietTrans(s, body, t, false);
    }
  }

  /** The foreground clean-up in a trace `t` whose pipe was closed at step
      `j + 1`: the wait for the child, then exactly the workspace teardown,
      then the removal of the record directory, then the network's
      disconnection when one is named. */
  predicate ForegroundCleanupAt(t: HostState, j: int, containerId: string, volume: string, net: string)
  {
    var k := j + 3 + |TeardownSteps(containerId, volume)|;
    && 0 <= j && k < |t.trace| && t.trace[j + 2] == WaitChild
    && t.trace[j + 3 .. k] == TeardownSteps(containerId, volume)
    && t.trace[k] == RemoveTree(InfoDir(containerId))
    && (net != "" ==> k + 1 < |t.trace| && t.trace[k + 1] == NetDisconnect(net))
  }

  /** After the record: the pipe is written and closed; in the foreground
      the parent then waits, tears the workspace down, removes the record
      directory and disconnects when a network is named, and nothing more. */
  lemma AfterRecordShape(env: Env, u: HostState, a: RunArgs, containerId: string)
    ensures var v := AfterRecordSpec(env, u, a, containerId);
      var j := |u.trace|;
      && Extends(u, v) && j + 1 < |v.trace|
      && v.trace[j] == PipeWrite(Join(a.cmdArr, " ")) && v.trace[j + 1] == PipeClose
      && (!a.tty ==> |v.trace| == j + 2)
      && (a.tty ==> && ForegroundCleanupAt(v, j, containerId, a.volume, a.net)
                    && |v.trace| == j + 4 + |TeardownSteps(containerId, a.volume)| + (if a.net != "" then 1 else 0))
  {
    var v := AfterRecordSpec(env, u, a, containerId);
    var cmd := SendInitCommandSteps(a.cmdArr);
    AfterRecordTrace(env, u, a, containerId);
    if a.tty {
      CleanupLayout(v, u.trace, cmd, containerId, a.volume, a.net);
    } else {
      assert v.trace[..|u.trace|] == u.trace;
    }
  }

  /** The steps after the record: the hand-off, then in the foreground the
      clean-up. */
  lemma AfterRecordTrace(env: Env, u: HostState, a: RunArgs, containerId: string)
    ensures AfterRecordSpec(env, u, a, containerId).trace
            == u.trace + SendInitCommandSteps(a.cmdArr)
               + (if a.tty then CleanupSteps(containerId, a.volume, a.net) else [])
  {
    if a.tty {
      var sent := Log(u.(trace := u.trace + SendInitCommandSteps(a.cmdArr)), WaitChild);
      TeardownTrace(env, sent, containerId, a.volume, a.net);
    }
  }

  /** After the wait: the workspace teardown, the record removal and the
      optional disconnect, each one step after the other. */
  lemma TeardownTrace(env: Env, sent: HostState, containerId: string, volume: string, net: string)
    ensures var s2 := DeleteWorkSpaceSpec(env, sent, containerId, volume);
      var s3 := DeleteContainerInfoSpec(env, s2, containerId).0;
      (if net != "" then Log(s3, NetDisconnect(net)) else s3).trace
      == sent.trace + TeardownSteps(containerId, volume) + [RemoveTree(InfoDir(containerId))]
         + (if net != "" then [NetDisconnect(net)] else [])
  {
    var s2 := DeleteWorkSpaceSpec(env, sent, containerId, volume);
    DeleteWorkSpaceLogsTeardown(env, sent, containerId, volume);
    RecordRemovalStep(env, s2, containerId);
  }

  /** Removing the record directory is one step in the trace. */
  lemma RecordRemovalStep(env: Env, s: HostState, containerId: string)
    ensures DeleteContainerInfoSpec(env, s, containerId).0.trace == s.trace + [RemoveTree(InfoDir(containerId))]
  {
  }

  /** What a foreground run appends after closing the pipe. */
  function CleanupSteps(containerId: string, volume: string, net: string): seq<Action>
  {
    [WaitChild] + TeardownSteps(containerId, volume) + [RemoveTree(InfoDir(containerId))]
    + (if net != "" then [NetDisconnect(net)] else [])
  }

  /** Where the hand-off and clean-up steps sit in a trace made of a prefix,
      the two hand-off steps and the clean-up steps. */
  lemma CleanupLayout(v: HostState, prefix: seq<Action>, cmd: seq<Action>, containerId: string, volume: string,
                      net: string)
    requires |cmd| == 2 && v.trace == prefix + cmd + CleanupSteps(containerId, volume, net)
    ensures var j := |prefix|;
      && v.trace[..j] == prefix && v.trace[j] == cmd[0] && v.trace[j + 1] == cmd[1]
      && ForegroundCleanupAt(v, j, containerId, volume, net)
      && |v.trace| == j + 4 + |TeardownSteps(containerId, volume)| + (if net != "" then 1 else 0)
  {
    var j := |prefix|;
    var td := TeardownSteps(containerId, volume);
    var k := j + 3 + |td|;
    assert v.trace[..j] == prefix;
    assert v.trace[j + 2] == WaitChild;
    assert v.trace[j + 3 .. k] == td;
    assert v.trace[k] == RemoveTree(InfoDir(containerId));
  }

  /** Up to the record `Run` takes no command step, and a written record
      was the last step. */
  lemma RunReachesRecord(env: Env, s: HostState, a: RunArgs, containerId: string, o: Launch)
    requires MountsOk(env, SubsystemsIns)
    requires RecordAttempt(env, Log(s, StartChild), a, containerId, o).1.Ok?
    ensures var u := RecordAttempt(env, Log(s, StartChild), a, containerId, o).0;
      && QuietSince(s, u, false) && |s.trace| < |u.trace|
      && u.trace[|u.trace| - 1] == SaveRecordAt(ConfigPath(containerId))
  {
    var s1 := Log(s, StartChild);
    var b := BeforeRecordSpec(env, s1, a, o);
    QuietSteps(s, s1, StartChild, true);
    BeforeRecordQuiet(env, s1, a, o);
    QuietTrans(s, s1, b, true);
    assert QuietSince(s, b, false);
    RecordSteps(env, b, o.pid, a.cmdArr, a.containerName, containerId, a.volume, a.net, a.portMapping,
                ContainerIp(a, o), o.createdTime);
    QuietTrans(s, b, RecordAttempt(env, s1, a, containerId, o).0, false);
  }

  /** The order `Run` keeps around the command, in a trace `t` whose steps
      from `start` on are the run's and whose record write is step `j - 1`:
      nothing before the record touched the pipe or waited, the pipe is
      written and closed right after the record, and then a detached run
      only touches files while a foreground run waits for the child, tears
      the workspace down, removes the record directory and disconnects the
      network when one is named. */
  predicate SendsCommandAt(t: HostState, start: int, j: int, cmd: string, containerId: string, tty: bool,
                           volume: string, net: string)
  {
    && 0 <= start < j && j + 1 < |t.trace|
    && (forall i :: start <= i < j ==> !CommandStep(t.trace[i]))
    && t.trace[j - 1] == SaveRecordAt(ConfigPath(containerId))
    && t.trace[j] == PipeWrite(cmd) && t.trace[j + 1] == PipeClose
    && (!tty ==> forall i :: j + 2 <= i < |t.trace| ==> FileStep(t.trace[i]))
    && (tty ==> ForegroundCleanupAt(t, j, containerId, volume, net))
  }

  /** The order of `Run`'s steps, read off the stages it goes through: up
      to the record `u`, the steps after it `v`, and the cgroup removal `t`. */
  lemma TraceOrder(s: HostState, u: HostState, v: HostState, t: HostState, cmd: string, containerId: string,
                   tty: bool, volume: string, net: string)
    requires QuietSince(s, u, false) && |s.trace| < |u.trace|
    requires u.trace[|u.trace| - 1] == SaveRecordAt(ConfigPath(containerId))
    requires Extends(u, v) && |u.trace| + 1 < |v.trace|
    requires v.trace[|u.trace|] == PipeWrite(cmd) && v.trace[|u.trace| + 1] == PipeClose
    requires !tty ==> |v.trace| == |u.trace| + 2
    requires tty ==> ForegroundCleanupAt(v, |u.trace|, containerId, volume, net)
    requires FileStepsOnly(v, t)
    ensures SendsCommandAt(t, |s.trace|, |u.trace|, cmd, containerId, tty, volume, net)
  {
    var j := |u.trace|;
    assert Extends(v, t);
    ExtendsTrans(u, v, t);
    assert t.trace[j] == t.trace[..|v.trace|][j] && t.trace[j + 1] == t.trace[..|v.trace|][j + 1];
    assert t.trace[j - 1] == t.trace[..|u.trace|][j - 1];
    forall i | |s.trace| <= i < j
      ensures !CommandStep(t.trace[i])
    {
      assert t.trace[i] == t.trace[..|u.trace|][i];
    }
    if tty {
      CleanupCarriesOver(v, t, j, containerId, volume, net);
    }
  }

  /** The foreground clean-up steps found in a trace are still there, at the
      same places, once more steps are appended. */
  lemma CleanupCarriesOver(v: HostState, t: HostState, j: nat, containerId: string, volume: string, net: string)
    requires Extends(v, t)
    requires ForegroundCleanupAt(v, j, containerId, volume, net)
    ensures ForegroundCleanupAt(t, j, containerId, volume, net)
  {
    var k := j + 3 + |TeardownSteps(containerId, volume)|;
    var last := if net != "" then k + 1 else k;
    forall i | 0 <= i <= last
      ensures t.trace[i] == v.trace[i]
    {
      assert t.trace[i] == t.trace[..|v.trace|][i];
    }
    assert t.trace[j + 3 .. k] == v.trace[j + 3 .. k];
  }

  /** A run that wrote its record goes on with the steps after it, then
      removes its cgroups. */
  lemma RunEndsAfterRecord(env: Env, s: HostState, a: RunArgs, containerId: string, o: Launch)
    requires MountsOk(env, SubsystemsIns) && o.parentOk && o.startOk && (a.net == "" || o.connect.Ok?)
    requires RecordAttempt(env, Log(s, StartChild), a, containerId, o).1.Ok?
    ensures RunSpec(env, s, a, containerId, o).0
            == ManagerDestroySpec(env, AfterRecordSpec(env, RecordAttempt(env, Log(s, StartChild), a, containerId, o).0,
                                                       a, containerId), SubsystemsIns, CgroupName)
  {
  }

  /** Once the record is written the command follows at once: the record
      write is the last step before the pipe is written, nothing before it
      touched the pipe or waited, and the pipe is closed right after. A
      detached run then only removes its cgroups. A foreground run waits for
      the child, takes exactly the workspace teardown steps, removes the
      record, disconnects the network when one is named, and then removes
      its cgroups. */
  lemma RunSendsCommand(env: Env, s: HostState, a: RunArgs, containerId: string, o: Launch)
    requires MountsOk(env, SubsystemsIns) && o.parentOk && o.startOk && (a.net == "" || o.connect.Ok?)
    requires RecordAttempt(env, Log(s, StartChild), a, containerId, o).1.Ok?
    ensures SendsCommandAt(RunSpec(env, s, a, containerId, o).0, |s.trace|,
                           |RecordAttempt(env, Log(s, StartChild), a, containerId, o).0.trace|,
                           Join(a.cmdArr, " "), containerId, a.tty, a.volume, a.net)
  {
    var u := RecordAttempt(env, Log(s, StartChild), a, containerId, o).0;
    assert RunSpec(env, s, a, containerId, o).0
        == ManagerDestroySpec(env, AfterRecordSpec(env, u, a, containerId), SubsystemsIns, CgroupName) by {
      RunEndsAfterRecord(env, s, a, containerId, o);
    }
    RunReachesRecord(env, s, a, containerId, o);
    RecordToEnd(env, s, u, a, containerId);
  }

  /** From a record written quietly after `s`, the steps after the record
      and the cgroup removal keep the order `SendsCommandAt` describes. */
  lemma RecordToEnd(env: Env, s: HostState, u: HostState, a: RunArgs, containerId: string)
    requires MountsOk(env, SubsystemsIns)
    requires QuietSince(s, u, false) && |s.trace| < |u.trace|
    requires u.trace[|u.trace| - 1] == SaveRecordAt(ConfigPath(containerId))
    ensures SendsCommandAt(ManagerDestroySpec(env, AfterRecordSpec(env, u, a, containerId), SubsystemsIns, CgroupName),
                           |s.trace|, |u.trace|, Join(a.cmdArr, " "), containerId, a.tty, a.volume, a.net)
  {
    var v := AfterRecordSpec(env, u, a, containerId);
    var t := ManagerDestroySpec(env, v, SubsystemsIns, CgroupName);
    AfterRecordShape(env, u, a, containerId);
    ManagerFileStepsOnly(env, v, SubsystemsIns, CgroupName, 0, a.res);
    TraceOrder(s, u, v, t, Join(a.cmdArr, " "), containerId, a.tty, a.volume, a.net);
  }


  /** The command `Run` writes into the pipe is read back by the init
      process as the same words, whenever there is a word and no word holds
      a space. */
  lemma RunHandsCommandToInit(cmdArr: seq<string>)
    requires |cmdArr| >= 1 && forall i :: 0 <= i < |cmdArr| ==> ' ' !in cmdArr[i]
    ensures InitProcess.ReadUserCommand(Some(SendInitCommandSteps(cmdArr)[0].msg)) == Some(cmdArr)
  {
    InitProcess.CommandHandOff(cmdArr);
  }
}
