/** container/container_info.go, the value side: the container record, where
    it is stored, how a new one is filled in, and the generated names. */
module ContainerInfo {
  import opened Wrappers
  import opened Text
  import Utils

  const Running: string := "running"
  const Stopped: string := "stopped"
  const Exited: string := "exited"
  const InfoLoc: string := "/var/lib/tiny-docker/containers/"
  const ConfigName: string := "config.json"
  const IdLength: nat := 10

  /** One container's record (its JSON file's fields). */
  datatype Info = Info(
    pid: string,
    id: string,
    name: string,
    command: string,
    createdTime: string,
    status: string,
    volume: string,
    networkName: string,
    portMapping: seq<string>,
    ip: string)

  /** `fmt.Sprintf(InfoLocFormat, id)`: the directory holding the record. */
  function InfoDir(containerId: string): string
  {
    InfoLoc + containerId + "/"
  }

  /** `path.Join(InfoDir(id), ConfigName)`: the record file itself. */
  function ConfigPath(containerId: string): (p: string)
    ensures p == InfoLoc + containerId + "/" + ConfigName
  {
    PathJoin(InfoDir(containerId), ConfigName)
  }

  /** The record `RecordContainerInfo` builds before writing it;
      `createdTime` is the formatted `time.Now()`. */
  function NewInfo(containerPid: int, commandArray: seq<string>, containerName: string,
                   containerId: string, volume: string, network: string,
                   portMapping: seq<string>, ip: string, createdTime: string): Info
  {
    var name := if containerName == "" then containerId else containerName;
    Info(Itoa(containerPid), containerId, name, Join(commandArray, ""), createdTime,
         Running, volume, network, portMapping, ip)
  }

  /** A new record is running, is named after its id when no name was given,
      copies the caller's fields, and holds a pid that parses back to the
      process id, which is what stopping it relies on. */
  lemma NewInfoProperties(containerPid: int, commandArray: seq<string>, containerName: string,
                          containerId: string, volume: string, network: string,
                          portMapping: seq<string>, ip: string, createdTime: string)
    ensures var r := NewInfo(containerPid, commandArray, containerName, containerId, volume,
                             network, portMapping, ip, createdTime);
      && r.status == Running
      && Atoi(r.pid) == Ok(containerPid)
      && (containerName == "" ==> r.name == containerId)
      && (containerName != "" ==> r.name == containerName)
      && r.command == Join(commandArray, "")
      && r.id == containerId && r.volume == volume && r.networkName == network
      && r.portMapping == portMapping && r.ip == ip
  {
    AtoiItoa(containerPid);
  }

  /** `GenerateContainerID`: `IdLength` digits from '1' to '9'; `draws` are
      the random choices. */
  method GenerateContainerID(draws: seq<int>) returns (id: string)
    requires |draws| == IdLength && forall i :: 0 <= i < IdLength ==> 0 <= draws[i] < 9
    ensures |id| == IdLength
    ensures forall i :: 0 <= i < |id| ==> '1' <= id[i] <= '9'
  {
    id := Utils.RandStringBytes(IdLength, draws);
  }

  /** `GetLogFile`: the detached container's log file name. */
  function GetLogFile(containerId: string): (f: string)
    ensures |f| == |containerId| + 9 && f[..|containerId|] == containerId && f[|containerId|..] == "-json.log"
  {
    containerId + "-json.log"
  }

  /** Distinct containers never share a log file or a record file. */
  lemma NamesInjective(a: string, b: string)
    ensures GetLogFile(a) == GetLogFile(b) ==> a == b
    ensures ConfigPath(a) == ConfigPath(b) ==> a == b
  {
    if GetLogFile(a) == GetLogFile(b) {
      assert a == GetLogFile(a)[..|a|] && b == GetLogFile(b)[..|b|];
    }
    if ConfigPath(a) == ConfigPath(b) {
      var x, y := ConfigPath(a), ConfigPath(b);
      assert |a| == |b|;
      assert a == x[|InfoLoc|..|InfoLoc| + |a|];
      assert b == y[|InfoLoc|..|InfoLoc| + |b|];
    }
  }
}
