/** container/container_info.go, the store side: writing a new container's
    record under its own directory, and removing that directory. */
module Records {
  import opened Wrappers
  import opened Text
  import opened HostOs
  import opened ContainerInfo

  /** `RecordContainerInfo`: the record's directory is made (with parents),
      then the record written into it; either failure is returned, wrapped
      with the path it concerns. */
  function RecordContainerInfoSpec(env: Env, s: HostState, containerPid: int, commandArray: seq<string>,
                                   containerName: string, containerId: string, volume: string, network: string,
                                   portMapping: seq<string>, ip: string, createdTime: string)
    : (HostState, Result<Info>)
  {
    var info := NewInfo(containerPid, commandArray, containerName, containerId, volume, network, portMapping, ip,
                        createdTime);
    var dirPath := InfoDir(containerId);
    var (s1, e1) := MkdirAllSpec(env, s, dirPath);
    if e1.Fail? then (s1, Err("mkdir " + dirPath + " failed: " + e1.msg))
    else
      var (s2, e2) := SaveRecordSpec(env, s1, containerId, info);
      if e2.Fail? then (s2, Err("create file " + ConfigPath(containerId) + " failed: " + e2.msg))
      else (s2, Ok(info))
  }

  /** `DeleteContainerInfo`: the record's whole directory goes. */
  function DeleteContainerInfoSpec(env: Env, s: HostState, containerId: string): (HostState, Outcome)
  {
    var dirPath := InfoDir(containerId);
    var (t, err) := RemoveAllSpec(env, s, dirPath);
    if err.Fail? then (t, Fail("remove dir " + dirPath + " failed: " + err.msg)) else (t, Pass)
  }

  method RecordContainerInfo(h: Host, containerPid: int, commandArray: seq<string>, containerName: string,
                             containerId: string, volume: string, network: string, portMapping: seq<string>,
                             ip: string, createdTime: string)
    returns (r: Result<Info>)
    modifies h
    ensures (h.Snapshot(), r) == RecordContainerInfoSpec(h.env, old(h.Snapshot()), containerPid, commandArray,
                                                         containerName, containerId, volume, network,
                                                         portMapping, ip, createdTime)
  {
    var info := NewInfo(containerPid, commandArray, containerName, containerId, volume, network, portMapping, ip,
                        createdTime);
    var dirPath := InfoDir(containerId);
    var err := h.MkdirAll(dirPath);
    if err.Fail? {
      return Err("mkdir " + dirPath + " failed: " + err.msg);
    }
    err := h.SaveRecord(containerId, info);
    if err.Fail? {
      return Err("create file " + ConfigPath(containerId) + " failed: " + err.msg);
    }
    return Ok(info);
  }

  method DeleteContainerInfo(h: Host, containerId: string) returns (err: Outcome)
    modifies h
    ensures (h.Snapshot(), err) == DeleteContainerInfoSpec(h.env, old(h.Snapshot()), containerId)
  {
    var dirPath := InfoDir(containerId);
    err := h.RemoveAll(dirPath);
    if err.Fail? {
      err := Fail("remove dir " + dirPath + " failed: " + err.msg);
    }
  }

  // ---------------------------------------------------------------------
  // What the store promises.

  /** Every stored record lives in an existing record directory. */
  predicate Consistent(s: HostState)
  {
    forall id :: id in s.records ==> InfoDir(id) in s.dirs
  }

  /** A record written successfully reads back as the record built, and no
      other record changes; the write succeeds whenever neither the record
      directory nor the record file is refused. */
  lemma RecordThenLoad(env: Env, s: HostState, containerPid: int, commandArray: seq<string>,
                       containerName: string, containerId: string, volume: string, network: string,
                       portMapping: seq<string>, ip: string, createdTime: string)
    ensures var info := NewInfo(containerPid, commandArray, containerName, containerId, volume, network,
                                portMapping, ip, createdTime);
      var (t, r) := RecordContainerInfoSpec(env, s, containerPid, commandArray, containerName, containerId,
                                            volume, network, portMapping, ip, createdTime);
      && (r.Ok? ==> r.value == info && LoadRecordSpec(env, t, containerId) == Ok(info)
                    && t.records == s.records[containerId := info])
      && ((InfoDir(containerId) !in env.denied && InfoDir(containerId) !in env.readOnly
           && InfoDir(containerId) !in s.files
           && ConfigPath(containerId) !in env.denied && ConfigPath(containerId) !in env.readOnly) ==> r.Ok?)
      && (Consistent(s) ==> Consistent(t))
  {
  }

  /** The record of a container lies in that container's record directory. */
  lemma ConfigUnderInfoDir(containerId: string)
    ensures IsUnder(ConfigPath(containerId), InfoDir(containerId))
  {
    var p, x := InfoDir(containerId), ConfigPath(containerId);
    assert x == p + ConfigName;
    assert x[..|p|] == p;
  }

  /** With slash-free ids, one container's record directory holds no other
      container's record. */
  lemma OtherRecordsOutside(a: string, b: string)
    requires '/' !in a && '/' !in b && a != b
    ensures !IsUnder(ConfigPath(b), InfoDir(a))
  {
    var p, x := InfoDir(a), ConfigPath(b);
    var n := |InfoLoc|;
    assert p[n..n + |a|] == a && p[n + |a|] == '/';
    assert x[n..n + |b|] == b && x[n + |b|] == '/';
    if |a| < |b| {
      assert x[n + |a|] == b[|a|];
    }
  }

  /** After a successful delete the container's record is gone, on a host
      whose records all sit in their directories, and every other record of
      a slash-free id is still there. */
  lemma DeleteThenLoad(env: Env, s: HostState, containerId: string)
    requires Consistent(s) && '/' !in containerId
    ensures var (t, err) := DeleteContainerInfoSpec(env, s, containerId);
      && (err == Pass ==> containerId !in t.records
                          && (ConfigPath(containerId) !in env.denied
                              ==> LoadRecordSpec(env, t, containerId) == Err(NoSuchFile)))
      && (forall b :: b in s.records && b != containerId && '/' !in b ==> b in t.records && t.records[b] == s.records[b])
      && Consistent(t)
  {
    var t := DeleteContainerInfoSpec(env, s, containerId).0;
    ConfigUnderInfoDir(containerId);
    forall b | b in s.records && b != containerId && '/' !in b
      ensures b in t.records && t.records[b] == s.records[b]
    {
      OtherRecordsOutside(containerId, b);
    }
    forall id | id in t.records
      ensures InfoDir(id) in t.dirs
    {
      assert id in s.records;
      if !IsUnder(InfoDir(id), InfoDir(containerId)) {
      } else {
        assert IsUnder(ConfigPath(id), InfoDir(containerId)) by {
          assert ConfigPath(id) == InfoDir(id) + ConfigName;
          assert (InfoDir(id) + ConfigName)[..|InfoDir(containerId)|] == InfoDir(id)[..|InfoDir(containerId)|];
        }
      }
    }
  }
}
