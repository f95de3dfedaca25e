# tiny-docker, modelled in Dafny

This project models the core of tiny-docker, a minimal container runtime
written in Go. The core is the bookkeeping behind the runtime's privileged
calls:

- the IPAM bitmap allocator that hands out container addresses (`network/ipam.go`);
- the three cgroup controllers (memory, cpu, cpuset) and the manager that
  runs them in a fixed order (`cgroups/`);
- the overlay workspace and volume of a container (`container/rootfs.go`,
  `container/volume.go`, `utils/rootfs.go`);
- the container record, and stopping and removing a container through it
  (`container/container_info.go`, `stop.go`);
- the parent side of `run` and the init process inside the container
  (`run.go`, `container/init.go`);
- the string helpers they use (`utils/utils.go`).

The host is a value `HostState` with four parts:

- its directories;
- its regular files and their contents;
- the stored container records, by id;
- a trace of the steps taken so far.

Every privileged or shell step (mount, umount, tar, kill, exec, the pipe
write, starting and waiting for the child, network connect and disconnect)
is an `Action` appended to the trace. Only its position in the trace is
modelled. The environment `Env` stands for whatever the runtime cannot
control:

- `denied` paths fail every call, stat and read included;
- `readOnly` paths can be read but refuse every change;
- `mountinfo` is the text of `/proc/self/mountinfo`, or `None` when it
  cannot be opened.

Each imperative operation is a method on a `HostOs.Host` object that
`modifies` it. Its `ensures` ties the new host state, and the result, to a
specification function of the old state (`StopSpec`, `SetSpec`,
`DeleteWorkSpaceSpec`, ...). The lemmas prove what the runtime promises
about those functions.

The IPAM allocator is a class that keeps two tables. `subnets` is the table
the allocator works on. `stored` is the content of the allocation file. Its
methods keep the source's loops: the scan for the first free bit, the byte
array the bit is flipped in, and the octet-by-octet address arithmetic.

Two behaviours of the code worth knowing:

- The address is computed octet by octet, each octet as a `uint8`, with no
  carry from one octet into the next. `Ipam.AddOffsetIsAddition` proves this
  equals ordinary addition whenever the subnet's host bits are zero and the
  offset lies inside the subnet. That is always the case after
  canonicalisation.
- A subnet with no free address is not reported as exhausted. `Allocate`
  returns no address, and no error when the allocation file is written.

## Model

| member | source | states |
|---|---|---|
| Ipam.InitialBitmap | network/ipam.go:44-54 | the first-use bitmap has 2^(32-prefix) characters, '1' at both ends and '0' everywhere between |
| Ipam.FirstFree | network/ipam.go:56-58 | the lowest index holding '0', or none exactly when the bitmap holds no '0' |
| Ipam.FindFree | network/ipam.go:56-58 | the scanning loop stops at the first '0', and at the end exactly when there is none |
| Ipam.SetAt | network/ipam.go:61-63 | copying to a byte array, overwriting one byte and converting back changes exactly that character |
| Ipam.AddOffset | network/ipam.go:76-79 | each octet of the result is the base octet plus the matching octet of the offset, mod 256 |
| Ipam.AddOffsetBytes | network/ipam.go:65-79 | the loop over t = 4..1 produces exactly `AddOffset(base, c)` |
| Ipam.AddOctetStep | network/ipam.go:78 | one loop turn, with shift (t-1)*8, computes octet 4-t of the address |
| Ipam.OffsetBytes | network/ipam.go:101-105 | `Release`'s loop sums the octet differences, each taken as a `uint8`, shifted into place |
| Ipam.Canonical | network/ipam.go:41 | `ParseCIDR(subnet.String())` keeps the prefix and yields a valid network |
| Ipam.CanonicalIdempotent | network/ipam.go:41 | canonicalising twice is canonicalising once |
| Ipam.MaskOctet | network/ipam.go:41 | masking an octet never raises it and removes less than 2^h |
| Ipam.AllocateSpecOf | network/ipam.go:44-82 | `Allocate`'s result read off the subnet's bitmap: unchanged and no address when no bit is free, else that bit set and the base plus its index |
| Ipam.Allocator.constructor | network/ipam.go:18-26 | an allocator over a given allocation file starts with an empty working table |
| Ipam.Allocator.Allocate | network/ipam.go:29-89 | a failed load returns an error and no address; otherwise the working table and address are `AllocateSpec` of the loaded table; a successful dump replaces the file and returns no error, a failed dump keeps the file and returns an error beside the address |
| Ipam.Allocator.Release | network/ipam.go:92-118 | a failed load returns an error; otherwise the bit at the recovered offset becomes '0', no error is returned, and the file is replaced only when the dump succeeds |
| Ipam.FirstUseBitmap | network/ipam.go:44-63 | a subnet met for the first time gets a bitmap of 2^(32-prefix) characters, taken at both ends; offset 1 is then taken and the rest stays free; other subnets are untouched |
| Ipam.AllocateTakesLowestFree | network/ipam.go:56-88 | exactly the lowest '0' becomes '1', every other character and subnet is unchanged, and the address is base plus that index; with no '0' the table is unchanged and no address comes back |
| Ipam.AddOffsetIsAddition | network/ipam.go:65-79 | the carry-free octet addition equals integer addition when the base has clear host bits and the offset is inside the subnet |
| Ipam.OffsetInvertsAddOffset | network/ipam.go:101-105 | `Release`'s offset sum recovers every offset below 2^32 that `Allocate` added, for every base |
| Ipam.AllocateAvoidsNetworkAndBroadcast | network/ipam.go:53-79 | on a first use, and on any bitmap taken at both ends, the address lies strictly between the network and broadcast addresses |
| Ipam.AllocateKeepsGuarded | network/ipam.go:53-63 | after `Allocate` the subnet's bitmap has the right length and is taken at both ends |
| Ipam.ReleaseUndoesAllocate | network/ipam.go:92-110 | releasing the address just allocated in a subnet already in use restores the table |
| Ipam.FreshTwice | network/ipam.go:44-79 | the first two allocations in a fresh subnet of four or more addresses take offsets 1 and 2 |
| Ipam.TwoFreeSlots | network/ipam.go:56-63 | the first two scans of a bitmap "100..." find indices 1 and 2 |
| Ipam.FreshSlash24 | network/ipam.go:44-79 | on a fresh 192.168.1.0/24 two allocations give 192.168.1.1 and then 192.168.1.2 |
| Ipam.SmallOffset | network/ipam.go:76-79 | an offset below 256 only changes the last octet |
| Ipam.ShiftOctetFits | network/ipam.go:76-79 | each octet of an in-range offset fits in that octet's host bits |
| Ipam.Decompose | network/ipam.go:76-79 | an offset below 2^32 is the sum of its four shifted octets |
| Subsystems.Fields | cgroups/subsystem/utils.go:51 | a mountinfo line always has at least one space-separated field |
| Subsystems.FirstMention | cgroups/subsystem/utils.go:47-60 | the index of the first line naming the controller; none exactly when no line does |
| Subsystems.FindCgroupMountpoint | cgroups/subsystem/utils.go:37-67 | the scan over lines, each line's options scanned in turn, returns the mount-point field of the first line naming the controller, and "" when none does or the table cannot be opened |
| Subsystems.HasOption | cgroups/subsystem/utils.go:51-59 | the scan of a line's last field, split at its commas, finds the controller exactly when the line names it |
| Subsystems.MountpointAt | cgroups/subsystem/utils.go:47-58 | the first line naming the controller has a mount-point field, and that field is the mount point |
| Subsystems.NoMountpoint | cgroups/subsystem/utils.go:47-66 | with no line naming the controller the mount point is "" |
| Subsystems.MentionsBySplit | cgroups/subsystem/utils.go:54-57 | a line names a controller exactly when an option split off its last field equals the name |
| Subsystems.FirstMentionAt | cgroups/subsystem/utils.go:47-60 | a naming line with none before it is the first mention |
| Subsystems.MountpointIsFirstMention | cgroups/subsystem/utils.go:37-67 | the mount point is field 4 of the first naming line, and "" when the table cannot be opened or no line names the controller |
| Subsystems.MentionsExactly | cgroups/subsystem/utils.go:51-57 | the match is exact per option: a line names a controller exactly when its option list holds that name |
| Subsystems.GetCgroupPath | cgroups/subsystem/utils.go:17-35 | the method's new state, path and error are `GetCgroupPathSpec` of the old state |
| Subsystems.GetCgroupPathLookupOnly | cgroups/subsystem/utils.go:18-22 | without auto-create the path is the mount point joined with the cgroup path, and the host is unchanged with no error |
| Subsystems.GetCgroupPathCreates | cgroups/subsystem/utils.go:24-34 | with auto-create an existing directory is refused with "create cgroup"; an absent one whose parent is missing fails with "no such file or directory"; an absent, writable one whose parent exists is made and nothing else changes; success means the directory is new |
| Subsystems.WriteWrappedFile | cgroups/subsystem/cpu.go:36-39 | a controller file write whose error comes back under the controller's prefix |
| Subsystems.SetCpuFiles | cgroups/subsystem/cpu.go:35-57 | the cpu controller's three writes, as `CpuWrites` of the old state |
| Subsystems.Set | cgroups/subsystem/cpu.go:25-58 | each controller's `Set` on the host is `SetSpec` of the old state |
| Subsystems.Apply | cgroups/subsystem/memory.go:38-52 | each controller's `Apply` on the host is `ApplySpec` of the old state |
| Subsystems.Remove | cgroups/subsystem/cpuset.go:55-61 | each controller's `Remove` on the host is `RemoveSpec` of the old state |
| Subsystems.UnconfiguredIsNoop | cgroups/subsystem/cpu.go:26-28 | with no limit for it, a controller's Set and Apply change nothing and return nil |
| Subsystems.SetRefusesExistingCgroup | cgroups/subsystem/memory.go:25-28 | Set refuses an existing cgroup directory with "create cgroup" before writing anything |
| Subsystems.WriteWrappedStores | cgroups/subsystem/memory.go:30-33 | a write into an existing directory, to a file that accepts it, stores exactly that file and succeeds |
| Subsystems.CpuWritesStore | cgroups/subsystem/cpu.go:35-55 | on a writable directory the share is written verbatim, the period as "100000" and the quota as 1000 times the percentage |
| Subsystems.SetCreatesCgroup | cgroups/subsystem/utils.go:24-29 | on a fresh writable cgroup directory, the creating lookup makes that directory and nothing else |
| Subsystems.CpuSetWritesLimits | cgroups/subsystem/cpu.go:25-58 | the cpu controller creates its cgroup and writes its limits there; a 20 percent quota becomes "20000" |
| Subsystems.ItoaLiterals | cgroups/subsystem/cpu.go:16 | the default period and a 20 percent quota are written as "100000" and "20000" |
| Subsystems.CpuSetStopsAtFirstFailure | cgroups/subsystem/cpu.go:36-39 | a refused share file returns the wrapped error, and the period and quota files are never written |
| Subsystems.SingleFileLimits | cgroups/subsystem/memory.go:20-35 | memory and cpuset create the cgroup and write their limit verbatim to `memory.limit_in_bytes` and `cpuset.cpus` |
| Subsystems.ApplyWritesPid | cgroups/subsystem/memory.go:42-50 | Apply writes the decimal pid to `tasks` in the existing cgroup and creates nothing |
| Subsystems.RemoveAbsentCgroup | cgroups/subsystem/cpu.go:79-85 | removing a cgroup with nothing at or below its directory succeeds and only logs the removal |
| Subsystems.MemoryLifecycle | cgroups/subsystem/memory_test.go:9-33 | Set, Apply, Apply to the root cgroup and Remove all succeed on a writable host with the memory controller mounted at an existing directory |
| Subsystems.MemorySetStage | cgroups/subsystem/memory_test.go:16-19 | the test's Set succeeds and creates the cgroup directly below the existing mount point, with both `tasks` files free |
| Subsystems.MemoryApplyAndRemove | cgroups/subsystem/memory_test.go:22-32 | once the cgroup exists, Apply to it, Apply to the root cgroup and Remove all succeed |
| Subsystems.ControllerFileStepsOnly | cgroups/subsystem/subsystem.go:11-20 | each controller's Set, Apply and Remove only take file-store steps |
| CgroupManagers.CgroupManager.constructor | cgroups/cgroup_manager.go:15-19 | the manager keeps the given path and has no resource |
| CgroupManagers.CgroupManager.Set | cgroups/cgroup_manager.go:33-41 | returns nil, and the host is every controller's Set in table order on the manager's path |
| CgroupManagers.CgroupManager.Apply | cgroups/cgroup_manager.go:22-30 | returns nil, and the host is every controller's Apply of the pid in table order |
| CgroupManagers.CgroupManager.Destroy | cgroups/cgroup_manager.go:44-52 | returns nil, and the host is every controller's Remove in table order |
| CgroupManagers.NothingConfiguredIsNoop | cgroups/cgroup_manager.go:22-41 | with no limit configured, the manager's Set and Apply change nothing |
| CgroupManagers.ApplyOnlyWritesPid | cgroups/subsystem/cpu.go:61-76 | a controller's Apply creates no directory and keeps every file already holding the pid |
| CgroupManagers.ManagerApplyKeepsPid | cgroups/cgroup_manager.go:22-30 | the manager's Apply creates no directory and never loses a file already holding the pid |
| CgroupManagers.ManagerApplyReachesEvery | cgroups/cgroup_manager.go:22-30 | errors do not stop the loop: every configured controller with an existing, writable cgroup ends with the pid in `tasks` |
| CgroupManagers.RemoveClearsCgroup | cgroups/subsystem/memory.go:55-61 | a controller's Remove never adds a directory, and its cgroup is gone unless it refuses removal |
| CgroupManagers.ManagerDestroyReachesEvery | cgroups/cgroup_manager.go:44-52 | Destroy tries every controller despite failures: each cgroup that accepts removal is gone |
| CgroupManagers.ClearedStays | cgroups/cgroup_manager.go:45-50 | cgroups cleared by earlier controllers stay cleared after a later removal |
| CgroupManagers.ManagerSetOrder | cgroups/subsystem/subsystem.go:22-26 | the table is visited as memory, then cpu, then cpuset |
| CgroupManagers.ManagerSetThree | cgroups/cgroup_manager.go:34-39 | Set over a three-controller table is their three Sets in order |
| CgroupManagers.ManagerSetSnoc | cgroups/cgroup_manager.go:34-39 | Set over a table with one more controller is Set over the shorter table, then that controller |
| CgroupManagers.ManagerFileStepsOnly | cgroups/cgroup_manager.go:22-52 | the manager's three loops only take file-store steps |
| Utils.PathExists | utils/utils.go:11-20 | `(true, nil)` exactly when the path exists; no error unless the stat failed otherwise, and then that error |
| Utils.VolumeExtract | utils/utils.go:24-36 | on error both halves are empty; on success they are non-empty, colon-free and joined by ':' give the volume back |
| Utils.VolumeExtractRoundTrip | utils/utils.go:24-36 | every two non-empty, colon-free paths joined by ':' are accepted and split back into the same pair |
| Utils.VolumeExtractRefusesColonCount | utils/utils.go:25-28 | a volume with no ':' or with two of them is refused |
| Utils.RandStringBytes | utils/utils.go:39-46 | n characters, each the drawn entry of "123456789", so each between '1' and '9' |
| OverlayPaths.LayersUnderRoot | utils/rootfs.go:9-12 | lower, upper, work and merged sit directly under the container root |
| OverlayPaths.LayerKindsDisjoint | utils/rootfs.go:9-12 | no layer directory of one kind equals one of another kind, for any two ids |
| OverlayPaths.LayerPathsInjective | utils/rootfs.go:17-38 | every path builder is injective: distinct ids never share a directory or an image |
| OverlayPaths.OverlayOptionsSplit | utils/rootfs.go:41-43 | the overlay option string splits at its commas into exactly the three `key=dir` settings |
| ContainerInfo.ConfigPath | container/container_info.go:21-23 | the record file is InfoLoc + id + "/config.json" |
| ContainerInfo.NewInfoProperties | container/container_info.go:44-59 | a new record is running, named after its id when no name was given, holds a pid that parses back, joins the command with "", and copies the other fields |
| ContainerInfo.GenerateContainerID | container/container_info.go:99-101 | a ten-character id of digits '1' to '9' |
| ContainerInfo.GetLogFile | container/container_info.go:104-106 | the log file name is the id followed by nine more characters |
| ContainerInfo.NamesInjective | container/container_info.go:21-25 | distinct containers never share a log file or a record file |
| Records.RecordContainerInfo | container/container_info.go:42-87 | the host and result are `RecordContainerInfoSpec` of the old state |
| Records.DeleteContainerInfo | container/container_info.go:90-96 | the host and error are `DeleteContainerInfoSpec` of the old state |
| Records.RecordThenLoad | container/container_info.go:42-87 | a successful record reads back as the record built and changes no other record; the record succeeds whenever neither its directory nor its file refuses; records stay in their directories |
| Records.ConfigUnderInfoDir | container/container_info.go:67-73 | the record file lies in the container's record directory |
| Records.OtherRecordsOutside | container/container_info.go:22-23 | a container's record directory holds no other container's record |
| Records.DeleteThenLoad | container/container_info.go:90-96 | after a successful delete the record is gone and reads back as missing; every other record is still there |
| HostOs.Host.LoadRecord | stop.go:52-65 | reading a record fails on a refused file or a missing record, else returns the stored record |
| Workspace.MkdirAllSteps | container/rootfs.go:62-66 | the creation loop logs one step per path |
| Workspace.RemoveAllSteps | container/rootfs.go:127-132 | the removal loop logs one step per path |
| Workspace.CreateLower | container/rootfs.go:30-52 | the host is `CreateLowerSpec` of the old state |
| Workspace.CreateDirs | container/rootfs.go:55-67 | the host is `MkdirAll` of upper, work and merged, in that order, errors ignored |
| Workspace.MountOverlayFS | container/rootfs.go:70-87 | logs the overlay mount of the container's layers on its merged directory |
| Workspace.MountVolume | container/volume.go:13-33 | the host is `MountVolumeSpec` of the old state |
| Workspace.UmountVolume | container/volume.go:35-43 | logs the unmount of the merged directory joined with the container path |
| Workspace.UmountOverlayFS | container/rootfs.go:107-116 | logs the unmount of the merged directory |
| Workspace.DeleteDirs | container/rootfs.go:118-133 | the host is `RemoveAll` of merged, lower, upper, work and root, in that order, errors ignored |
| Workspace.NewWorkSpace | container/rootfs.go:12-27 | the host is `NewWorkSpaceSpec` of the old state |
| Workspace.DeleteWorkSpace | container/rootfs.go:90-105 | the host is `DeleteWorkSpaceSpec` of the old state |
| Workspace.CreateLowerOnlyWhenMissing | container/rootfs.go:36-51 | the lower layer is left alone exactly when it is known to exist; otherwise it is created and then the image unpacked into it |
| Workspace.MkdirAllEachTrace | container/rootfs.go:62-66 | the creation loop logs one `MkdirAll` per path, in order |
| Workspace.RemoveAllEachTrace | container/rootfs.go:127-132 | the removal loop logs one `RemoveAll` per path, in order |
| Workspace.MkdirAllEachReachesEvery | container/rootfs.go:62-66 | a failure never stops the loop: every listed directory that can be made exists afterwards, and none is lost |
| Workspace.OverlayStageTrace | container/rootfs.go:13-15 | upper, work and merged are made in that order, then the overlay of those layers is mounted on merged |
| Workspace.NewWorkSpaceTrace | container/rootfs.go:12-27 | the steps in order: lower (only when missing), the three directories, the overlay mount, then the volume's steps when it is given and valid |
| Workspace.VolumeStageTrace | container/rootfs.go:18-26 | the volume stage adds both mkdirs and the bind mount for a valid volume, and nothing for an empty or invalid one |
| Workspace.DeleteWorkSpaceInvalidVolume | container/rootfs.go:94-98 | an invalid volume makes teardown return at once: nothing is unmounted or removed |
| Workspace.DeleteWorkSpaceTrace | container/rootfs.go:90-105 | teardown unmounts the volume, then the overlay, then removes merged, lower, upper, work and root |
| Workspace.DeleteWorkSpaceLogsTeardown | container/rootfs.go:90-105 | for every volume, valid, empty or not parsing, teardown appends exactly its teardown steps and nothing else |
| Workspace.VolumeTargetsMatch | container/volume.go:19-37 | the volume is unmounted from exactly the path it was bound to |
| Workspace.StepsPerPath | container/rootfs.go:62-66 | the n-th step of a loop is about its n-th path |
| Workspace.RemoveAllEachKeepsShorter | container/rootfs.go:127-132 | the removal loop never brings back a directory and keeps one shorter than every removed path |
| Workspace.DeleteWorkSpaceClearsRoot | container/rootfs.go:90-133 | with a writable container root, no directory, file or record at or below it remains after teardown, whether or not the root itself was recorded |
| HostOs.RemoveAllClears | container/rootfs.go:128 | a removal that is not refused succeeds, leaves nothing at or below its path, and adds nothing |
| InitProcess.ReadUserCommand | container/init.go:48-58 | no command exactly when the read fails; otherwise at least one space-free word, and the words joined by " " give the message back |
| InitProcess.LookPath | container/init.go:33-37 | a program resolves exactly when its name is non-empty and on the path |
| InitProcess.MountProc | container/init.go:60-68 | logs exactly the private recursive remount of "/" and the proc mount |
| InitProcess.RunContainerInitProcess | container/init.go:26-45 | the host and error are `RunContainerInitProcessSpec` of the old state |
| InitProcess.CommandHandOff | container/init.go:56-57 | splitting at " " a join of space-free words recovers those words |
| InitProcess.InitStepOrder | container/init.go:26-45 | /proc is mounted after "/" is made private, then the resolved program is executed with the remaining words, and nil is returned |
| InitProcess.InitRunsCommand | container/init.go:29-44 | once the message reads as a command whose program resolves, the mounts and then the exec are logged |
| InitProcess.MountProcFlags | container/init.go:63-67 | the flags are MS_PRIVATE\|MS_REC = 0x44000 and MS_NOEXEC\|MS_NOSUID\|MS_NODEV = 0xe |
| InitProcess.InitFailures | container/init.go:29-37 | a failed read and an unknown program return an error after the mounts and before any exec; an empty message reads as [""] and fails |
| Lifecycle.StopContainer | stop.go:16-49 | the host and error are `StopSpec` of the old state |
| Lifecycle.StopMarksStopped | stop.go:23-48 | with a readable record and a numeric pid, stop succeeds, logs the kill and the rewrite; the record becomes stopped with an empty pid when the rewrite lands and is unchanged otherwise |
| Lifecycle.StopRefusals | stop.go:18-27 | an unreadable record or a non-numeric pid returns an error and changes nothing |
| Lifecycle.StopTwiceFails | stop.go:23-35 | a second stop fails on the cleared pid and changes nothing |
| Lifecycle.RemoveContainer | stop.go:67-100 | the host is `RemoveContainerSpec` of the old state |
| Lifecycle.RemoveRefusals | stop.go:69-98 | an unreadable record, a running one without force and any other status leave the host unchanged |
| Lifecycle.RemoveStoppedContainer | stop.go:76-84 | a stopped record's directory is removed first; on failure nothing else happens, else the workspace on the stored volume goes and the record is gone |
| Lifecycle.ForceRemoveRunning | stop.go:85-95 | forcing a running container stops it, then removes it as stopped |
| Lifecycle.RemoveLoopsOnRefusedRewrite | stop.go:91-95 | as written, forcing a running container whose record cannot be rewritten never ends |
| Lifecycle.CorrectedRemoveStopsOnce | stop.go:85-95 | corrected, the same removal stops once and returns with the records unchanged |
| Lifecycle.AsWrittenAgreesWhenRewriteLands | stop.go:67-100 | when the rewrite lands, the code as written and the corrected removal agree |
| Lifecycle.RemoveAllEachAddsNoRecord | container/rootfs.go:127-132 | removing trees never adds a record |
| Lifecycle.DeleteWorkSpaceAddsNoRecord | container/rootfs.go:90-105 | removing a workspace never adds a record |
| Lifecycle.DeleteWorkSpaceExtends | container/rootfs.go:90-105 | removing a workspace only appends to the trace |
| Lifecycle.SendInitCommand | run.go:76-81 | logs the words joined with " " written to the pipe, then the pipe closed |
| Lifecycle.Run | run.go:15-74 | the id has ten characters, and the host and ending are `RunSpec` of the old state |
| Lifecycle.RunWithoutParent | run.go:18-22 | without a parent process `Run` changes nothing |
| Lifecycle.RunStartFailureCrashes | run.go:23-31 | a failed start is logged, the limits are set, and `Run` then crashes on the missing process, having sent no command and written no record |
| Lifecycle.RunDestroysCgroups | run.go:28-33 | after a started child every return passes the deferred Destroy: each cgroup that accepts removal is gone |
| Lifecycle.RunEarlyReturns | run.go:37-59 | a failed connect returns before the record and the command; a failed record returns before the command |
| Lifecycle.RecordSteps | container/container_info.go:67-84 | recording sends no command, and a successful record makes the directory and then writes the file |
| Lifecycle.BeforeRecordQuiet | run.go:28-52 | setting limits, applying the pid and connecting write no record and send no command |
| Lifecycle.AfterRecordShape | run.go:62-73 | after the record the pipe is written and closed and, detached, nothing follows; in the foreground the parent then waits, takes exactly the workspace teardown steps, removes the record directory, disconnects when a network is named, and nothing follows |
| Lifecycle.AfterRecordTrace | run.go:62-73 | the steps after the record are the hand-off, then in the foreground the wait, the workspace teardown, the record removal and the optional disconnect |
| Lifecycle.RunReachesRecord | run.go:23-59 | up to a successful record nothing touches the pipe, and the record write is the last step |
| Lifecycle.TraceOrder | run.go:55-74 | the record, the command hand-off, the wait, the workspace teardown and the rest of the cleanup come in the order `Run` gives them |
| Lifecycle.CleanupCarriesOver | run.go:33 | the deferred Destroy keeps every foreground cleanup step, the workspace teardown included, in place |
| Lifecycle.RunEndsAfterRecord | run.go:33-74 | after a successful record, `Run` ends as the hand-off and cleanup followed by Destroy |
| Lifecycle.RunSendsCommand | run.go:55-74 | the command goes to the pipe only after the record is written, then the pipe is closed; detached, only file steps follow; in the foreground the parent waits, takes exactly the workspace teardown steps, removes the record and then disconnects when a network is named |
| Lifecycle.RecordToEnd | run.go:62-74 | from a written record to the end, the hand-off order holds |
| Lifecycle.RunHandsCommandToInit | run.go:76-79 | the message `Run` writes is read by the init process as the same words |
| Lifecycle.QuietSteps | run.go:28-52 | file-store steps and single non-command steps send no command |
| HostOs.FileCallsLogFileSteps | container/rootfs.go:63 | each call on the file store logs exactly one file-store step |
| Text.Split | container/init.go:57 | `strings.Split` gives at least one piece, and no piece holds the separator |
| Text.JoinSplit | container/init.go:57 | joining the pieces of a split gives the string back |
| Text.SplitJoin | container/init.go:57 | splitting a join of separator-free pieces gives the pieces back |
| Text.SplitNoSeparator | utils/utils.go:25 | a string without the separator splits into itself |
| Text.SplitAfterPrefix | utils/utils.go:25 | a separator-free prefix and the separator become the first piece |
| Text.AtoiItoa | stop.go:23 | every decimal written by `strconv.Itoa` parses back to the same number |
| Text.ItoaHasNoSeparators | network/ipam.go:41 | a decimal holds no '.', '/' or ' ' |
| Text.Repeat | network/ipam.go:51 | `strings.Repeat` gives n copies of the character |
| Text.NatToString | container/container_info.go:49 | the decimal of a natural number is a non-empty run of digits |
| Text.DigitsValueOfNat | container/container_info.go:49 | the digits of a natural number read back as that number |

## Left out

- Persistence is abstract. The JSON encoding of records and of the IPAM table is a library call, so a record and a table are stored as values. The IPAM file's directory creation, its fixed 2000-byte read buffer and a decode failure are folded into the `loadOk` and `dumpOk` inputs.
- `path.Join` is modelled only for the forms the runtime produces. Empty parts are dropped and exactly one '/' separates the two. `..` and repeated slashes are not cleaned.
- Strings are sequences of characters standing for the bytes of the Go strings. There is no UTF-8 encoding.
- `os.Mkdir` needs the path up to the last '/' to be a directory. That parent is read literally: repeated slashes, `.` and `..` are not resolved.
- `os.MkdirAll` does not create the missing parents as separate directories. It records the one path it was given, and it fails when that path is refused or is a regular file.
- `os.Stat` fails only on refused paths. Other I/O errors, such as an error reading mountinfo half way (`scanner.Err`), are not modelled.
- The shell and syscall steps (`tar`, `mount`, `umount`, `syscall.Mount`, `syscall.Exec`, `syscall.Kill`, starting and waiting for the child) appear only as trace entries. Their effect on the host beyond the file store is not modelled. `exec` is a trace entry after which the init process returns nil, not a replacement of the process.
- The init process's `exec.LookPath` is a table lookup. `os.Environ` is not modelled.
- `syscall.Kill` is always logged and its failure, which the code only logs, is not modelled. A pid of 0 or below is not special.
- `network.Connect` and `network.Disconnect` (network/bridge_driver.go) are not part of this model. Connect's result is an input, and both appear as trace entries.
- `NewParentProcess` (container/container_process.go) is not part of this model. Whether it returns a process and whether that process starts are inputs. `imageName` and `envSlice` are therefore not used by `Run`.
- `time.Now()` in the record is the `createdTime` input, and `rand.Intn(9)` in `RandStringBytes` is a sequence of draws.
- Logging is not modelled.
- Go's `int` is unbounded here. `1000 * quota` in the cpu controller, `strconv.Atoi` on very long numbers and the pid do not wrap.
- IPv6 subnets are not modelled. An IPNet is four octets and a prefix of 0 to 32.
- Ipam.AllocateSpec, Ipam.Allocator.Allocate: require a prefix below 32 for a subnet seen for the first time. At /32, `strings.Repeat` with a count of -1 panics in the source.
- Ipam.Allocator.Allocate, Ipam.Allocator.Release: a failed dump leaves the stored table as it was. In the source the file is opened with `O_TRUNC`, so a write that fails after the open leaves it empty.
- Ipam.AllocateAvoidsNetworkAndBroadcast: holds only for a bitmap taken at both ends. A hand-edited allocation file could break that, and the source does not check.
- Ipam.ReleaseSpec, Ipam.Allocator.Release: require the recovered offset to lie inside the stored bitmap. Otherwise the byte-array write panics in the source.
- Subsystems.FindCgroupMountpoint, Subsystems.GetCgroupPath, Subsystems.Set, Subsystems.Apply, Subsystems.Remove: require that the first line naming the controller has a fifth field. A shorter line makes the source panic on its index.
- CgroupManagers.CgroupManager.Set, CgroupManagers.CgroupManager.Apply, CgroupManagers.CgroupManager.Destroy, Lifecycle.Run: carry the same mount-table requirement for all three controllers.
- Lifecycle.RemoveStoppedContainer: assumes every stored record sits in an existing record directory. The runtime itself keeps this, as `Records.RecordThenLoad` and `Records.DeleteThenLoad` prove.
- Lifecycle.RemoveContainer: models the corrected removal described under Findings, not the recursion as written. The code as written is `Lifecycle.RemoveContainerAsWritten`, with fuel bounding its recursion depth.
- Lifecycle.Run, Lifecycle.RunDestroysCgroups: the kernel refuses to remove a cgroup that still holds tasks (EBUSY), so a detached run's deferred Destroy leaves its cgroups in place in practice. The host's refusals are fixed per path, so the model cannot express a refusal that depends on the cgroup's processes.
- Concurrency between runtime invocations on the same record, cgroup or IPAM file is not modelled.

## Findings

| source | as written | input that shows it | evidently intended | confidence | as-written member | corrected member |
|---|---|---|---|---|---|---|
| stop.go:44-48, stop.go:91-95 | `removeContainer` with force stops a running container and then calls itself with force still set. `stopContainer` only logs a failed rewrite of the record and returns nil, so the record still reads "running" and the recursion repeats without end | a record with status "running", a numeric pid and a config file on a read-only file system (the write fails with EROFS), or an immutable config file; a mode-only read-only file does not do it, since the runtime runs as root | stop once and then remove the container as stopped; when the rewrite did not land, return instead of stopping again | not executed | Lifecycle.RemoveContainerAsWritten (Lifecycle.RemoveLoopsOnRefusedRewrite) | Lifecycle.RemoveContainerSpec (Lifecycle.CorrectedRemoveStopsOnce, Lifecycle.AsWrittenAgreesWhenRewriteLands) |
