/** The privileged and shell steps the runtime performs, as the entries of a
    trace, and what `os.Stat` can report. What a step does to the host beyond
    the file store is not modelled; its position in the trace is. */
module Platform {

  /** What `os.Stat` reports about a path. */
  datatype StatResult = Found | NotExist | StatFailed(msg: string)

  /** Linux mount flags used by the init process (`syscall.MS_*`). */
  const MsNoSuid: int := 2
  const MsNoDev: int := 4
  const MsNoExec: int := 8
  const MsRec: int := 16384
  const MsPrivate: int := 262144

  datatype Action =
    | MakeDir(path: string)                    // os.Mkdir
    | MakeDirAll(path: string)                 // os.MkdirAll
    | WriteFileAt(path: string, data: string)  // os.WriteFile
    | RemoveTree(path: string)                 // os.RemoveAll
    | SaveRecordAt(path: string)               // the container record's JSON file written
    | Untar(archive: string, dest: string)     // tar -xvf archive -C dest
    | OverlayMount(options: string, target: string)  // mount -t overlay overlay -o options target
    | BindMount(source: string, target: string)      // mount -o bind source target
    | Unmount(target: string)                  // umount target
    | SysMount(source: string, target: string, fstype: string, flags: int)  // syscall.Mount
    | StartChild                               // exec.Cmd.Start of the container process
    | WaitChild                                // exec.Cmd.Wait
    | SignalTerm(pid: int)                     // syscall.Kill(pid, SIGTERM)
    | NetConnect(network: string)              // network.Connect
    | NetDisconnect(network: string)           // network.Disconnect
    | PipeWrite(msg: string)                   // write to the init command pipe
    | PipeClose                                // close of its write end
    | ExecCommand(path: string, argv: seq<string>)  // syscall.Exec
}
