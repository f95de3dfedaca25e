/** utils/utils.go: the existence test, the volume-string parser and the
    random digit string behind container ids. */
module Utils {
  import opened Wrappers
  import opened Text
  import opened Platform

  /** `PathExists`: `(true, nil)` when the path exists, `(false, nil)` when it
      does not, `(false, err)` for any other failure of `os.Stat`. */
  function PathExists(stat: StatResult): (r: (bool, Outcome))
    ensures r.0 <==> stat == Found
    ensures r.1 == Pass <==> !stat.StatFailed?
    ensures stat.StatFailed? ==> r.1 == Fail(stat.msg)
  {
    match stat
    case Found => (true, Pass)
    case NotExist => (false, Pass)
    case StatFailed(msg) => (false, Fail(msg))
  }

  /** `VolumeExtract`: a volume spec `hostPath:containerPath` split at its only
      ':' into two non-empty halves; on any error both halves are empty. */
  function VolumeExtract(volume: string): (r: (string, string, Outcome))
    ensures r.2.Fail? ==> r.0 == "" && r.1 == ""
    ensures r.2 == Pass ==> r.0 + ":" + r.1 == volume
    ensures r.2 == Pass ==> r.0 != "" && r.1 != "" && ':' !in r.0 && ':' !in r.1
  {
    var parts := Split(volume, ':');
    if |parts| != 2 then
      ("", "", Fail("invalid volume [" + volume + "], must split by `:`"))
    else if parts[0] == "" || parts[1] == "" then
      ("", "", Fail("invalid volume [" + volume + "], path can't be empty"))
    else
      JoinSplit(volume, ':');
      (parts[0], parts[1], Pass)
  }

  /** The converse of `VolumeExtract`'s contract: every pair of non-empty,
      colon-free paths joined by ':' is accepted and split back into the same
      pair. */
  lemma VolumeExtractRoundTrip(src: string, dst: string)
    requires src != "" && dst != "" && ':' !in src && ':' !in dst
    ensures VolumeExtract(src + ":" + dst) == (src, dst, Pass)
  {
    SplitAfterPrefix(src, ':', dst);
    SplitNoSeparator(dst, ':');
  }

  /** A volume spec with no ':' or with two of them is refused. */
  lemma VolumeExtractRefusesColonCount(volume: string)
    requires ':' !in volume || exists i, j :: 0 <= i < j < |volume| && volume[i] == ':' && volume[j] == ':'
    ensures VolumeExtract(volume).2.Fail?
  {
  }

  const LetterBytes: string := "123456789"

  /** `RandStringBytes(n)`: `draws` are the `rand.Intn(9)` values in the order
      the loop asks for them. */
  method RandStringBytes(n: nat, draws: seq<int>) returns (s: string)
    requires |draws| == n && forall i :: 0 <= i < n ==> 0 <= draws[i] < 9
    ensures |s| == n
    ensures forall i :: 0 <= i < n ==> s[i] == LetterBytes[draws[i]]
    ensures forall i :: 0 <= i < n ==> '1' <= s[i] <= '9'
  {
    var res := new char[n];
    for i := 0 to n
      invariant forall j :: 0 <= j < i ==> res[j] == LetterBytes[draws[j]]
    {
      res[i] := LetterBytes[draws[i]];
    }
    s := res[..];
  }
}
