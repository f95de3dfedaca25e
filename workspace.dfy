/** container/rootfs.go and container/volume.go: building a container's
    overlay workspace (lower layer from the image, upper/work/merged
    directories, the overlay mount, an optional bind-mounted volume) and
    tearing it down again. Every failure is logged and the next step runs. */
module Workspace {
  import opened Wrappers
  import opened Text
  import opened Platform
  import opened HostOs
  import opened Utils
  import opened OverlayPaths

  // ---------------------------------------------------------------------
  // Directory lists.

  /** `createDirs`' list, in creation order. */
  function CreateList(containerId: string): seq<string>
  {
    [GetUpper(containerId), GetWorker(containerId), GetMerged(containerId)]
  }

  /** `deleteDirs`' list, in removal order. */
  function DeleteList(containerId: string): seq<string>
  {
    [GetMerged(containerId), GetLower(containerId), GetUpper(containerId), GetWorker(containerId), GetRoot(containerId)]
  }

  /** The host after `os.MkdirAll` of each path in turn, errors ignored. */
  function MkdirAllEach(env: Env, s: HostState, paths: seq<string>): HostState
  {
    if paths == [] then s
    else MkdirAllSpec(env, MkdirAllEach(env, s, paths[..|paths| - 1]), paths[|paths| - 1]).0
  }

  /** The host after `os.RemoveAll` of each path in turn, errors ignored. */
  function RemoveAllEach(env: Env, s: HostState, paths: seq<string>): HostState
  {
    if paths == [] then s
    else RemoveAllSpec(env, RemoveAllEach(env, s, paths[..|paths| - 1]), paths[|paths| - 1]).0
  }

  /** The trace entries of `MkdirAllEach`. */
  function MkdirAllSteps(paths: seq<string>): (steps: seq<Action>)
    ensures |steps| == |paths|
  {
    if paths == [] then [] else MkdirAllSteps(paths[..|paths| - 1]) + [MakeDirAll(paths[|paths| - 1])]
  }

  /** The trace entries of `RemoveAllEach`. */
  function RemoveAllSteps(paths: seq<string>): (steps: seq<Action>)
    ensures |steps| == |paths|
  {
    if paths == [] then [] else RemoveAllSteps(paths[..|paths| - 1]) + [RemoveTree(paths[|paths| - 1])]
  }

  // ---------------------------------------------------------------------
  // The steps, as functions of the host.

  /** `createLower`: the image is unpacked into the lower directory unless
      that directory is known to exist (a failed stat counts as absent). */
  function CreateLowerSpec(env: Env, s: HostState, containerId: string, imageName: string): HostState
  {
    var lowerPath := GetLower(containerId);
    if PathExists(StatSpec(env, s, lowerPath)).0 then s
    else Log(MkdirAllSpec(env, s, lowerPath).0, Untar(GetImage(imageName), lowerPath))
  }

  function OverlayOptions(containerId: string): string
  {
    GetOverlayFSDirs(GetLower(containerId), GetUpper(containerId), GetWorker(containerId))
  }

  /** `mountVolume`: both mount points are attempted with `os.Mkdir`, then
      the bind mount is attempted whatever they returned. */
  function MountVolumeSpec(env: Env, s: HostState, mntPath: string, hostPath: string, containerPath: string): HostState
  {
    var s1 := MkdirSpec(env, s, hostPath).0;
    var containerPathInHost := PathJoin(mntPath, containerPath);
    var s2 := MkdirSpec(env, s1, containerPathInHost).0;
    Log(s2, BindMount(hostPath, containerPathInHost))
  }

  function NewWorkSpaceSpec(env: Env, s: HostState, containerId: string, imageName: string, volume: string): HostState
  {
    var s1 := CreateLowerSpec(env, s, containerId, imageName);
    var s2 := MkdirAllEach(env, s1, CreateList(containerId));
    var s3 := Log(s2, OverlayMount(OverlayOptions(containerId), GetMerged(containerId)));
    if volume == "" then s3
    else
      var (hostPath, containerPath, err) := VolumeExtract(volume);
      if err.Fail? then s3 else MountVolumeSpec(env, s3, GetMerged(containerId), hostPath, containerPath)
  }

  function DeleteWorkSpaceSpec(env: Env, s: HostState, containerId: string, volume: string): HostState
  {
    var (_, containerPath, err) := VolumeExtract(volume);
    if volume != "" && err.Fail? then s
    else
      var s1 := if volume != "" then Log(s, Unmount(PathJoin(GetMerged(containerId), containerPath))) else s;
      var s2 := Log(s1, Unmount(GetMerged(containerId)));
      RemoveAllEach(env, s2, DeleteList(containerId))
  }

  // ---------------------------------------------------------------------
  // The steps, as the runtime takes them.

  method CreateLower(h: Host, containerId: string, imageName: string)
    modifies h
    ensures h.Snapshot() == CreateLowerSpec(h.env, old(h.Snapshot()), containerId, imageName)
  {
    var lowerPath := GetLower(containerId);
    var imagePath := GetImage(imageName);
    var st := h.Stat(lowerPath);
    var (exist, _) := PathExists(st);
    if !exist {
      var _ := h.MkdirAll(lowerPath);
      h.Run(Untar(imagePath, lowerPath));
    }
  }

  method CreateDirs(h: Host, containerId: string)
    modifies h
    ensures h.Snapshot() == MkdirAllEach(h.env, old(h.Snapshot()), CreateList(containerId))
  {
    var dirs := CreateList(containerId);
    for i := 0 to |dirs|
      invariant h.Snapshot() == MkdirAllEach(h.env, old(h.Snapshot()), dirs[..i])
    {
      var _ := h.MkdirAll(dirs[i]);
      assert dirs[..i + 1][..i] == dirs[..i];
    }
    assert dirs[..|dirs|] == dirs;
  }

  method MountOverlayFS(h: Host, containerId: string)
    modifies h
    ensures h.Snapshot() == Log(old(h.Snapshot()), OverlayMount(OverlayOptions(containerId), GetMerged(containerId)))
  {
    var dirs := GetOverlayFSDirs(GetLower(containerId), GetUpper(containerId), GetWorker(containerId));
    h.Run(OverlayMount(dirs, GetMerged(containerId)));
  }

  method MountVolume(h: Host, mntPath: string, hostPath: string, containerPath: string)
    modifies h
    ensures h.Snapshot() == MountVolumeSpec(h.env, old(h.Snapshot()), mntPath, hostPath, containerPath)
  {
    var _ := h.Mkdir(hostPath);
    var containerPathInHost := PathJoin(mntPath, containerPath);
    var _ := h.Mkdir(containerPathInHost);
    h.Run(BindMount(hostPath, containerPathInHost));
  }

  method UmountVolume(h: Host, mntPath: string, containerPath: string)
    modifies h
    ensures h.Snapshot() == Log(old(h.Snapshot()), Unmount(PathJoin(mntPath, containerPath)))
  {
    h.Run(Unmount(PathJoin(mntPath, containerPath)));
  }

  method UmountOverlayFS(h: Host, containerId: string)
    modifies h
    ensures h.Snapshot() == Log(old(h.Snapshot()), Unmount(GetMerged(containerId)))
  {
    h.Run(Unmount(GetMerged(containerId)));
  }

  method DeleteDirs(h: Host, containerId: string)
    modifies h
    ensures h.Snapshot() == RemoveAllEach(h.env, old(h.Snapshot()), DeleteList(containerId))
  {
    var dirs := DeleteList(containerId);
    for i := 0 to |dirs|
      invariant h.Snapshot() == RemoveAllEach(h.env, old(h.Snapshot()), dirs[..i])
    {
      var _ := h.RemoveAll(dirs[i]);
      assert dirs[..i + 1][..i] == dirs[..i];
    }
    assert dirs[..|dirs|] == dirs;
  }

  method NewWorkSpace(h: Host, containerId: string, imageName: string, volume: string)
    modifies h
    ensures h.Snapshot() == NewWorkSpaceSpec(h.env, old(h.Snapshot()), containerId, imageName, volume)
  {
    CreateLower(h, containerId, imageName);
    CreateDirs(h, containerId);
    MountOverlayFS(h, containerId);
    if volume != "" {
      var mntPath := GetMerged(containerId);
      var (hostPath, containerPath, err) := VolumeExtract(volume);
      if err.Fail? {
        return;
      }
      MountVolume(h, mntPath, hostPath, containerPath);
    }
  }

  method DeleteWorkSpace(h: Host, containerId: string, volume: string)
    modifies h
    ensures h.Snapshot() == DeleteWorkSpaceSpec(h.env, old(h.Snapshot()), containerId, volume)
  {
    if volume != "" {
      var mntPath := GetMerged(containerId);
      var (_, containerPath, err) := VolumeExtract(volume);
      if err.Fail? {
        return;
      }
      UmountVolume(h, mntPath, containerPath);
    }
    UmountOverlayFS(h, containerId);
    DeleteDirs(h, containerId);
  }

  // ---------------------------------------------------------------------
  // What the workspace promises.

  /** The lower layer is left alone exactly when it is known to exist;
      otherwise it is created and the image unpacked into it, in that order. */
  lemma CreateLowerOnlyWhenMissing(env: Env, s: HostState, containerId: string, imageName: string)
    ensures var lowerPath := GetLower(containerId);
      && (LowerSteps(env, s, containerId, imageName) == [] <==> lowerPath !in env.denied && Exists(s, lowerPath))
      && (LowerSteps(env, s, containerId, imageName) == [] ==> CreateLowerSpec(env, s, containerId, imageName) == s)
      && CreateLowerSpec(env, s, containerId, imageName).trace == s.trace + LowerSteps(env, s, containerId, imageName)
  {
  }

  /** The steps `createLower` logs: none when the lower directory is known to
      exist, else its creation and then the unpacking of the image into it. */
  function LowerSteps(env: Env, s: HostState, containerId: string, imageName: string): seq<Action>
  {
    var lowerPath := GetLower(containerId);
    if PathExists(StatSpec(env, s, lowerPath)).0 then []
    else [MakeDirAll(lowerPath), Untar(GetImage(imageName), lowerPath)]
  }

  /** Creating directories in turn logs one `MkdirAll` per path, in order. */
  lemma {:induction false} MkdirAllEachTrace(env: Env, s: HostState, paths: seq<string>)
    ensures MkdirAllEach(env, s, paths).trace == s.trace + MkdirAllSteps(paths)
  {
    if paths != [] {
      MkdirAllEachTrace(env, s, paths[..|paths| - 1]);
    }
  }

  /** Removing trees in turn logs one `RemoveAll` per path, in order. */
  lemma {:induction false} RemoveAllEachTrace(env: Env, s: HostState, paths: seq<string>)
    ensures RemoveAllEach(env, s, paths).trace == s.trace + RemoveAllSteps(paths)
  {
    if paths != [] {
      RemoveAllEachTrace(env, s, paths[..|paths| - 1]);
    }
  }

  /** A failure never stops the creation loop: every listed directory that
      is not refused, not empty and not a regular file exists afterwards,
      and no directory is lost. */
  lemma {:induction false} MkdirAllEachReachesEvery(env: Env, s: HostState, paths: seq<string>)
    ensures var t := MkdirAllEach(env, s, paths);
      && s.dirs <= t.dirs && t.files == s.files
      && forall k :: (0 <= k < |paths| && paths[k] != "" && paths[k] !in env.denied && paths[k] !in env.readOnly
                      && paths[k] !in s.files) ==> paths[k] in t.dirs
  {
    if paths != [] {
      var n := |paths| - 1;
      MkdirAllEachReachesEvery(env, s, paths[..n]);
      forall k | 0 <= k < n
        ensures paths[k] == paths[..n][k]
      {
      }
    }
  }

  /** The steps of a volume mount: both mount points made, then bound. */
  function VolumeSteps(containerId: string, volume: string): seq<Action>
  {
    var (hostPath, containerPath, err) := VolumeExtract(volume);
    if volume == "" || err.Fail? then []
    else [MakeDir(hostPath), MakeDir(PathJoin(GetMerged(containerId), containerPath)),
          BindMount(hostPath, PathJoin(GetMerged(containerId), containerPath))]
  }

  /** The steps of `DeleteWorkSpace`: none for a volume that does not
      parse, else the volume's unmount when there is one, the overlay's
      unmount and the removal of merged, lower, upper, work and root. */
  function TeardownSteps(containerId: string, volume: string): seq<Action>
  {
    var (_, containerPath, err) := VolumeExtract(volume);
    if volume != "" && err.Fail? then []
    else (if volume == "" then [] else [Unmount(PathJoin(GetMerged(containerId), containerPath))])
         + [Unmount(GetMerged(containerId)),
            RemoveTree(GetMerged(containerId)), RemoveTree(GetLower(containerId)),
            RemoveTree(GetUpper(containerId)), RemoveTree(GetWorker(containerId)),
            RemoveTree(GetRoot(containerId))]
  }

  /** `createDirs` then `mountOverlayFS`: upper, work and merged are
      created in that order, then the overlay of exactly those layers is
      mounted on merged. */
  lemma OverlayStageTrace(env: Env, s: HostState, containerId: string)
    ensures Log(MkdirAllEach(env, s, CreateList(containerId)),
                OverlayMount(OverlayOptions(containerId), GetMerged(containerId))).trace
            == s.trace + [MakeDirAll(GetUpper(containerId)), MakeDirAll(GetWorker(containerId)),
                          MakeDirAll(GetMerged(containerId)),
                          OverlayMount(OverlayOptions(containerId), GetMerged(containerId))]
  {
    var l := CreateList(containerId);
    MkdirAllEachTrace(env, s, l);
    StepsPerPath(l);
    assert MkdirAllSteps(l)
        == [MakeDirAll(GetUpper(containerId)), MakeDirAll(GetWorker(containerId)), MakeDirAll(GetMerged(containerId))];
  }

  /** NewWorkSpace's steps in order: the lower layer (only when missing), the
      upper, work and merged directories, the overlay mount of exactly those
      layers on merged, then the volume's steps when the volume is given and
      valid; an invalid volume leaves the overlay mounted and binds nothing. */
  lemma NewWorkSpaceTrace(env: Env, s: HostState, containerId: string, imageName: string, volume: string)
    ensures NewWorkSpaceSpec(env, s, containerId, imageName, volume).trace
            == s.trace + LowerSteps(env, s, containerId, imageName)
               + [MakeDirAll(GetUpper(containerId)), MakeDirAll(GetWorker(containerId)),
                  MakeDirAll(GetMerged(containerId)),
                  OverlayMount(OverlayOptions(containerId), GetMerged(containerId))]
               + VolumeSteps(containerId, volume)
  {
    var s1 := CreateLowerSpec(env, s, containerId, imageName);
    var s3 := Log(MkdirAllEach(env, s1, CreateList(containerId)),
                  OverlayMount(OverlayOptions(containerId), GetMerged(containerId)));
    var overlay := [MakeDirAll(GetUpper(containerId)), MakeDirAll(GetWorker(containerId)),
                    MakeDirAll(GetMerged(containerId)),
                    OverlayMount(OverlayOptions(containerId), GetMerged(containerId))];
    assert s1.trace == s.trace + LowerSteps(env, s, containerId, imageName) by {
      CreateLowerOnlyWhenMissing(env, s, containerId, imageName);
    }
    assert s3.trace == s1.trace + overlay by { OverlayStageTrace(env, s1, containerId); }
    VolumeStageTrace(env, s3, containerId, volume);
  }

  /** The volume stage of NewWorkSpace appends exactly the volume's steps. */
  lemma VolumeStageTrace(env: Env, s3: HostState, containerId: string, volume: string)
    ensures var (hostPath, containerPath, err) := VolumeExtract(volume);
      var t := if volume == "" || err.Fail? then s3
               else MountVolumeSpec(env, s3, GetMerged(containerId), hostPath, containerPath);
      t.trace == s3.trace + VolumeSteps(containerId, volume)
  {
    var (hostPath, containerPath, err) := VolumeExtract(volume);
    if volume != "" && err.Pass? {
      var inHost := PathJoin(GetMerged(containerId), containerPath);
      var s1 := MkdirSpec(env, s3, hostPath).0;
      var s2 := MkdirSpec(env, s1, inHost).0;
      assert s1.trace == s3.trace + [MakeDir(hostPath)];
      assert s2.trace == s1.trace + [MakeDir(inHost)];
      assert MountVolumeSpec(env, s3, GetMerged(containerId), hostPath, containerPath).trace
          == s2.trace + [BindMount(hostPath, inHost)];
      assert VolumeSteps(containerId, volume) == [MakeDir(hostPath), MakeDir(inHost), BindMount(hostPath, inHost)];
    }
  }

  /** Whatever the volume, DeleteWorkSpace appends exactly its teardown
      steps to the trace. */
  lemma DeleteWorkSpaceLogsTeardown(env: Env, s: HostState, containerId: string, volume: string)
    ensures DeleteWorkSpaceSpec(env, s, containerId, volume).trace == s.trace + TeardownSteps(containerId, volume)
  {
    if volume != "" && VolumeExtract(volume).2.Fail? {
      DeleteWorkSpaceInvalidVolume(env, s, containerId, volume);
    } else {
      DeleteWorkSpaceTrace(env, s, containerId, volume);
    }
  }

  /** An invalid volume makes DeleteWorkSpace return before it does
      anything: the overlay stays mounted and no directory is removed. */
  lemma DeleteWorkSpaceInvalidVolume(env: Env, s: HostState, containerId: string, volume: string)
    requires volume != "" && VolumeExtract(volume).2.Fail?
    ensures DeleteWorkSpaceSpec(env, s, containerId, volume) == s
  {
  }

  /** DeleteWorkSpace's steps in order: the volume unmount (when a valid
      volume is given), the overlay unmount, then the removal of merged,
      lower, upper, work and the container root. */
  lemma DeleteWorkSpaceTrace(env: Env, s: HostState, containerId: string, volume: string)
    requires volume == "" || VolumeExtract(volume).2 == Pass
    ensures DeleteWorkSpaceSpec(env, s, containerId, volume).trace
            == s.trace
               + (if volume == "" then [] else [Unmount(PathJoin(GetMerged(containerId), VolumeExtract(volume).1))])
               + [Unmount(GetMerged(containerId)),
                  RemoveTree(GetMerged(containerId)), RemoveTree(GetLower(containerId)),
                  RemoveTree(GetUpper(containerId)), RemoveTree(GetWorker(containerId)),
                  RemoveTree(GetRoot(containerId))]
  {
    var l := DeleteList(containerId);
    var s1 := if volume != "" then Log(s, Unmount(PathJoin(GetMerged(containerId), VolumeExtract(volume).1))) else s;
    RemoveAllEachTrace(env, Log(s1, Unmount(GetMerged(containerId))), l);
    StepsPerPath(l);
    assert RemoveAllSteps(l)
        == [RemoveTree(GetMerged(containerId)), RemoveTree(GetLower(containerId)),
            RemoveTree(GetUpper(containerId)), RemoveTree(GetWorker(containerId)),
            RemoveTree(GetRoot(containerId))];
  }

  /** The volume is unmounted from exactly the path it was bound to. */
  lemma VolumeTargetsMatch(env: Env, s: HostState, u: HostState, containerId: string, imageName: string, volume: string)
    requires volume != "" && VolumeExtract(volume).2 == Pass
    ensures var made := NewWorkSpaceSpec(env, s, containerId, imageName, volume).trace;
      var gone := DeleteWorkSpaceSpec(env, u, containerId, volume).trace;
      && |made| > 0 && |gone| > |u.trace|
      && made[|made| - 1].BindMount? && gone[|u.trace|] == Unmount(made[|made| - 1].target)
  {
    NewWorkSpaceTrace(env, s, containerId, imageName, volume);
    DeleteWorkSpaceTrace(env, u, containerId, volume);
  }

  /** The n-th step logged by a loop over a list is about its n-th path. */
  lemma {:induction false} StepsPerPath(paths: seq<string>)
    ensures forall i :: 0 <= i < |paths| ==> MkdirAllSteps(paths)[i] == MakeDirAll(paths[i])
    ensures forall i :: 0 <= i < |paths| ==> RemoveAllSteps(paths)[i] == RemoveTree(paths[i])
  {
    if paths != [] {
      StepsPerPath(paths[..|paths| - 1]);
    }
  }

  /** RemoveAll in turn never brings back a directory, and leaves alone a
      directory shorter than every path removed. */
  lemma {:induction false} RemoveAllEachKeepsShorter(env: Env, s: HostState, paths: seq<string>, x: string)
    requires x in s.dirs && forall k :: 0 <= k < |paths| ==> |x| < |paths[k]|
    ensures x in RemoveAllEach(env, s, paths).dirs
  {
    if paths != [] {
      var n := |paths| - 1;
      RemoveAllEachKeepsShorter(env, s, paths[..n], x);
    }
  }

  /** With a writable container root, DeleteWorkSpace leaves no directory,
      file or record at or below that root, whether or not the root itself
      was ever recorded. */
  lemma DeleteWorkSpaceClearsRoot(env: Env, s: HostState, containerId: string, volume: string)
    requires volume == "" || VolumeExtract(volume).2 == Pass
    requires GetRoot(containerId) !in env.denied && GetRoot(containerId) !in env.readOnly
    ensures !Occupied(DeleteWorkSpaceSpec(env, s, containerId, volume), GetRoot(containerId))
  {
    var root := GetRoot(containerId);
    var l := DeleteList(containerId);
    var s1 := if volume != "" then Log(s, Unmount(PathJoin(GetMerged(containerId), VolumeExtract(volume).1))) else s;
    var s2 := Log(s1, Unmount(GetMerged(containerId)));
    assert l[..4] == l[..|l| - 1] && l[4] == root;
    assert root != "";
    RemoveAllClears(env, RemoveAllEach(env, s2, l[..4]), root);
  }
}
