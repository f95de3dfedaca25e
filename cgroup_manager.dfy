/** cgroups/cgroup_manager: one cgroup path per container, driven through
    every controller of the table in order; a controller's error is logged
    and never stops the next one or reaches the caller. */
module CgroupManagers {
  import opened Wrappers
  import opened Text
  import opened HostOs
  import opened Subsystems

  /** Every controller in `subs` can look up its mount point. */
  predicate MountsOk(env: Env, subs: seq<Subsystem>)
  {
    forall k :: 0 <= k < |subs| ==> MountTableOk(env.mountinfo, subs[k].Name())
  }

  /** The host after each controller of `subs`, in order, set its limits on
      `path`; outcomes are dropped. */
  function ManagerSetSpec(env: Env, s: HostState, subs: seq<Subsystem>, path: string, res: ResourceConfig): HostState
    requires MountsOk(env, subs)
  {
    if subs == [] then s
    else SetSpec(env, ManagerSetSpec(env, s, subs[..|subs| - 1], path, res), subs[|subs| - 1], path, res).0
  }

  /** The host after each controller of `subs`, in order, took in `pid`. */
  function ManagerApplySpec(env: Env, s: HostState, subs: seq<Subsystem>, path: string, pid: int, res: ResourceConfig)
    : HostState
    requires MountsOk(env, subs)
  {
    if subs == [] then s
    else ApplySpec(env, ManagerApplySpec(env, s, subs[..|subs| - 1], path, pid, res), subs[|subs| - 1], path, pid, res).0
  }

  /** The host after each controller of `subs`, in order, removed `path`. */
  function ManagerDestroySpec(env: Env, s: HostState, subs: seq<Subsystem>, path: string): HostState
    requires MountsOk(env, subs)
  {
    if subs == [] then s
    else RemoveSpec(env, ManagerDestroySpec(env, s, subs[..|subs| - 1], path), subs[|subs| - 1], path).0
  }

  class CgroupManager {
    /** The cgroup's path relative to each controller's root cgroup. */
    const path: string
    /** Declared by the manager but never assigned by it. */
    const resource: Option<ResourceConfig>

    constructor (path: string)
      ensures this.path == path && resource == None
    {
      this.path := path;
      resource := None;
    }

    method Set(h: Host, res: ResourceConfig) returns (err: Outcome)
      requires MountsOk(h.env, SubsystemsIns)
      modifies h
      ensures err == Pass
      ensures h.Snapshot() == ManagerSetSpec(h.env, old(h.Snapshot()), SubsystemsIns, path, res)
    {
      var i := 0;
      while i < |SubsystemsIns|
        invariant 0 <= i <= |SubsystemsIns|
        invariant h.Snapshot() == ManagerSetSpec(h.env, old(h.Snapshot()), SubsystemsIns[..i], path, res)
      {
        var e := Subsystems.Set(h, SubsystemsIns[i], path, res);
        assert SubsystemsIns[..i + 1][..i] == SubsystemsIns[..i];
        i := i + 1;
      }
      assert SubsystemsIns[..i] == SubsystemsIns;
      return Pass;
    }

    method Apply(h: Host, pid: int, res: ResourceConfig) returns (err: Outcome)
      requires MountsOk(h.env, SubsystemsIns)
      modifies h
      ensures err == Pass
      ensures h.Snapshot() == ManagerApplySpec(h.env, old(h.Snapshot()), SubsystemsIns, path, pid, res)
    {
      var i := 0;
      while i < |SubsystemsIns|
        invariant 0 <= i <= |SubsystemsIns|
        invariant h.Snapshot() == ManagerApplySpec(h.env, old(h.Snapshot()), SubsystemsIns[..i], path, pid, res)
      {
        var e := Subsystems.Apply(h, SubsystemsIns[i], path, pid, res);
        assert SubsystemsIns[..i + 1][..i] == SubsystemsIns[..i];
        i := i + 1;
      }
      assert SubsystemsIns[..i] == SubsystemsIns;
      return Pass;
    }

    method Destroy(h: Host) returns (err: Outcome)
      requires MountsOk(h.env, SubsystemsIns)
      modifies h
      ensures err == Pass
      ensures h.Snapshot() == ManagerDestroySpec(h.env, old(h.Snapshot()), SubsystemsIns, path)
    {
      var i := 0;
      while i < |SubsystemsIns|
        invariant 0 <= i <= |SubsystemsIns|
        invariant h.Snapshot() == ManagerDestroySpec(h.env, old(h.Snapshot()), SubsystemsIns[..i], path)
      {
        var e := Subsystems.Remove(h, SubsystemsIns[i], path);
        assert SubsystemsIns[..i + 1][..i] == SubsystemsIns[..i];
        i := i + 1;
      }
      assert SubsystemsIns[..i] == SubsystemsIns;
      return Pass;
    }
  }

  // ---------------------------------------------------------------------
  // What the manager promises.

  /** With no limit configured the manager's Set and Apply touch nothing:
      no cgroup directory is made and no file is written. */
  lemma {:induction false} NothingConfiguredIsNoop(env: Env, s: HostState, subs: seq<Subsystem>, path: string,
                                                   pid: int, res: ResourceConfig)
    requires MountsOk(env, subs)
    requires forall k :: 0 <= k < |subs| ==> !Configured(subs[k], res)
    ensures ManagerSetSpec(env, s, subs, path, res) == s
    ensures ManagerApplySpec(env, s, subs, path, pid, res) == s
  {
    if subs != [] {
      var init := subs[..|subs| - 1];
      NothingConfiguredIsNoop(env, s, init, path, pid, res);
      UnconfiguredIsNoop(env, s, subs[|subs| - 1], path, pid, res);
    }
  }

  /** A controller's Apply creates nothing and changes no file except by
      writing the pid. */
  lemma ApplyOnlyWritesPid(env: Env, s: HostState, sub: Subsystem, path: string, pid: int, res: ResourceConfig)
    requires MountTableOk(env.mountinfo, sub.Name())
    ensures var t := ApplySpec(env, s, sub, path, pid, res).0;
      && t.dirs == s.dirs
      && forall f :: f in s.files && s.files[f] == Itoa(pid) ==> f in t.files && t.files[f] == Itoa(pid)
  {
  }

  /** The manager's Apply keeps every directory and every file already
      holding the pid. */
  lemma {:induction false} ManagerApplyKeepsPid(env: Env, s: HostState, subs: seq<Subsystem>, path: string,
                                                pid: int, res: ResourceConfig)
    requires MountsOk(env, subs)
    ensures var t := ManagerApplySpec(env, s, subs, path, pid, res);
      && t.dirs == s.dirs
      && forall f :: f in s.files && s.files[f] == Itoa(pid) ==> f in t.files && t.files[f] == Itoa(pid)
  {
    if subs != [] {
      var init := subs[..|subs| - 1];
      ManagerApplyKeepsPid(env, s, init, path, pid, res);
      ApplyOnlyWritesPid(env, ManagerApplySpec(env, s, init, path, pid, res), subs[|subs| - 1], path, pid, res);
    }
  }

  /** Every configured controller whose cgroup directory exists and accepts
      writes ends up with the pid in its `tasks` file, whatever the other
      controllers did before or after it. */
  lemma {:induction false} ManagerApplyReachesEvery(env: Env, s: HostState, subs: seq<Subsystem>, path: string,
                                                    pid: int, res: ResourceConfig)
    requires MountsOk(env, subs)
    ensures var t := ManagerApplySpec(env, s, subs, path, pid, res);
      forall k :: 0 <= k < |subs| && Configured(subs[k], res) && CgroupDir(env, subs[k], path) in s.dirs
                  && Writable(env, CgroupDir(env, subs[k], path))
                  && PathJoin(CgroupDir(env, subs[k], path), "tasks") !in s.dirs
                  ==> PathJoin(CgroupDir(env, subs[k], path), "tasks") in t.files
                      && t.files[PathJoin(CgroupDir(env, subs[k], path), "tasks")] == Itoa(pid)
  {
    if subs != [] {
      var n := |subs| - 1;
      var init := subs[..n];
      var u := ManagerApplySpec(env, s, init, path, pid, res);
      var t := ManagerApplySpec(env, s, subs, path, pid, res);
      ManagerApplyReachesEvery(env, s, init, path, pid, res);
      ManagerApplyKeepsPid(env, s, init, path, pid, res);
      ApplyOnlyWritesPid(env, u, subs[n], path, pid, res);
      forall k | 0 <= k < |subs| && Configured(subs[k], res) && CgroupDir(env, subs[k], path) in s.dirs
                 && Writable(env, CgroupDir(env, subs[k], path))
                 && PathJoin(CgroupDir(env, subs[k], path), "tasks") !in s.dirs
        ensures PathJoin(CgroupDir(env, subs[k], path), "tasks") in t.files
                && t.files[PathJoin(CgroupDir(env, subs[k], path), "tasks")] == Itoa(pid)
      {
        if k == n {
          ApplyWritesPid(env, u, subs[n], path, pid, res);
        } else {
          assert init[k] == subs[k];
        }
      }
    }
  }

  /** `sub`'s cgroup directory is gone from `t` unless it refuses removal. */
  predicate Cleared(env: Env, t: HostState, sub: Subsystem, path: string)
    requires MountTableOk(env.mountinfo, sub.Name())
  {
    var d := CgroupDir(env, sub, path);
    d != "" && d !in env.denied && d !in env.readOnly ==> d !in t.dirs
  }

  /** A controller's Remove never brings a directory back, and leaves its own
      cgroup directory gone unless that directory refuses the removal. */
  lemma RemoveClearsCgroup(env: Env, s: HostState, sub: Subsystem, path: string)
    requires MountTableOk(env.mountinfo, sub.Name())
    ensures var t := RemoveSpec(env, s, sub, path).0;
      t.dirs <= s.dirs && Cleared(env, t, sub, path)
  {
    var d := CgroupDir(env, sub, path);
    if d != "" && Exists(s, d) {
      assert IsUnder(d, d);
    }
  }

  /** The manager's Destroy tries every controller despite earlier failures:
      each cgroup directory that does not refuse removal is gone afterwards. */
  lemma {:induction false} ManagerDestroyReachesEvery(env: Env, s: HostState, subs: seq<Subsystem>, path: string)
    requires MountsOk(env, subs)
    ensures var t := ManagerDestroySpec(env, s, subs, path);
      && t.dirs <= s.dirs
      && forall k :: 0 <= k < |subs| ==> Cleared(env, t, subs[k], path)
  {
    if subs != [] {
      var n := |subs| - 1;
      var init := subs[..n];
      var u := ManagerDestroySpec(env, s, init, path);
      var t := ManagerDestroySpec(env, s, subs, path);
      ManagerDestroyReachesEvery(env, s, init, path);
      RemoveClearsCgroup(env, u, subs[n], path);
      ClearedStays(env, u, t, subs, init, path);
    }
  }

  /** Directories cleared before a step that only removes directories stay
      cleared after it. */
  lemma ClearedStays(env: Env, u: HostState, t: HostState, subs: seq<Subsystem>, init: seq<Subsystem>, path: string)
    requires MountsOk(env, subs) && |subs| > 0 && init == subs[..|subs| - 1]
    requires t.dirs <= u.dirs && Cleared(env, t, subs[|subs| - 1], path)
    requires forall k :: 0 <= k < |init| ==> Cleared(env, u, init[k], path)
    ensures forall k :: 0 <= k < |subs| ==> Cleared(env, t, subs[k], path)
  {
    forall k | 0 <= k < |subs| - 1
      ensures Cleared(env, t, subs[k], path)
    {
      assert subs[k] == init[k];
      assert Cleared(env, u, subs[k], path);
    }
  }

  /** Running through `SubsystemsIns` visits memory, then cpu, then cpuset:
      Set on the table is the three controllers' Sets one after another. */
  lemma ManagerSetOrder(env: Env, s: HostState, path: string, res: ResourceConfig)
    requires MountTableOk(env.mountinfo, Memory.Name()) && MountTableOk(env.mountinfo, Cpu.Name())
    requires MountTableOk(env.mountinfo, Cpuset.Name())
    ensures MountsOk(env, SubsystemsIns)
    ensures ManagerSetSpec(env, s, SubsystemsIns, path, res)
            == SetSpec(env, SetSpec(env, SetSpec(env, s, Memory, path, res).0, Cpu, path, res).0, Cpuset, path, res).0
  {
    ManagerSetThree(env, s, Memory, Cpu, Cpuset, path, res);
  }

  /** Set over a table of three controllers is their three Sets in order. */
  lemma ManagerSetThree(env: Env, s: HostState, x: Subsystem, y: Subsystem, z: Subsystem, path: string,
                        res: ResourceConfig)
    requires MountTableOk(env.mountinfo, x.Name()) && MountTableOk(env.mountinfo, y.Name())
    requires MountTableOk(env.mountinfo, z.Name())
    ensures MountsOk(env, [x, y, z])
    ensures ManagerSetSpec(env, s, [x, y, z], path, res)
            == SetSpec(env, SetSpec(env, SetSpec(env, s, x, path, res).0, y, path, res).0, z, path, res).0
  {
    assert [x, y, z][0] == x && [x, y, z][1] == y && [x, y, z][2] == z;
    assert [] + [x] == [x] && [x] + [y] == [x, y] && [x, y] + [z] == [x, y, z];
    ManagerSetSnoc(env, s, [], x, path, res);
    ManagerSetSnoc(env, s, [x], y, path, res);
    ManagerSetSnoc(env, s, [x, y], z, path, res);
  }

  /** Set on a table with one more controller is Set on the shorter table,
      then that controller's Set. */
  lemma ManagerSetSnoc(env: Env, s: HostState, subs: seq<Subsystem>, sub: Subsystem, path: string,
                       res: ResourceConfig)
    requires MountsOk(env, subs + [sub])
    ensures MountsOk(env, subs)
    ensures ManagerSetSpec(env, s, subs + [sub], path, res)
            == SetSpec(env, ManagerSetSpec(env, s, subs, path, res), sub, path, res).0
  {
    assert (subs + [sub])[..|subs|] == subs;
    forall k | 0 <= k < |subs|
      ensures MountTableOk(env.mountinfo, subs[k].Name())
    {
      assert (subs + [sub])[k] == subs[k];
    }
  }

  /** The manager's three walks only ever touch the file store: no mount,
      process or network step is logged by them. */
  lemma {:induction false} ManagerFileStepsOnly(env: Env, s: HostState, subs: seq<Subsystem>, path: string,
                                                pid: int, res: ResourceConfig)
    requires MountsOk(env, subs)
    ensures FileStepsOnly(s, ManagerSetSpec(env, s, subs, path, res))
    ensures FileStepsOnly(s, ManagerApplySpec(env, s, subs, path, pid, res))
    ensures FileStepsOnly(s, ManagerDestroySpec(env, s, subs, path))
  {
    if subs != [] {
      var n := |subs| - 1;
      var init := subs[..n];
      ManagerFileStepsOnly(env, s, init, path, pid, res);
      var a, b, c := ManagerSetSpec(env, s, init, path, res), ManagerApplySpec(env, s, init, path, pid, res),
                     ManagerDestroySpec(env, s, init, path);
      ControllerFileStepsOnly(env, a, subs[n], path, pid, res);
      ControllerFileStepsOnly(env, b, subs[n], path, pid, res);
      ControllerFileStepsOnly(env, c, subs[n], path, pid, res);
      FileStepsOnlyTrans(s, a, SetSpec(env, a, subs[n], path, res).0);
      FileStepsOnlyTrans(s, b, ApplySpec(env, b, subs[n], path, pid, res).0);
      FileStepsOnlyTrans(s, c, RemoveSpec(env, c, subs[n], path).0);
    }
  }
}
