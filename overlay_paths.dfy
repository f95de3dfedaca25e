/** utils/rootfs.go: where images and the overlay layers of each container
    live, and the option string handed to the overlay mount. */
module OverlayPaths {
  import opened Text

  const ImagePath: string := "/var/lib/tiny-docker/image/"
  const RootPath: string := "/var/lib/tiny-docker/overlay2/"

  /** The per-container directory holding the four layers. */
  function GetRoot(containerId: string): string
  {
    RootPath + containerId
  }

  /** The image archive an image name refers to. */
  function GetImage(imageName: string): string
  {
    ImagePath + imageName + ".tar"
  }

  function GetLower(containerId: string): string
  {
    RootPath + containerId + "/lower"
  }

  function GetUpper(containerId: string): string
  {
    RootPath + containerId + "/upper"
  }

  function GetWorker(containerId: string): string
  {
    RootPath + containerId + "/work"
  }

  function GetMerged(containerId: string): string
  {
    RootPath + containerId + "/merged"
  }

  /** The `-o` argument of the overlay mount. */
  function GetOverlayFSDirs(lower: string, upper: string, worker: string): string
  {
    "lowerdir=" + lower + ",upperdir=" + upper + ",workdir=" + worker
  }

  /** All four layers sit directly below the container's root directory. */
  lemma LayersUnderRoot(containerId: string)
    ensures GetLower(containerId) == GetRoot(containerId) + "/lower"
    ensures GetUpper(containerId) == GetRoot(containerId) + "/upper"
    ensures GetWorker(containerId) == GetRoot(containerId) + "/work"
    ensures GetMerged(containerId) == GetRoot(containerId) + "/merged"
  {
  }

  /** Two strings that end in suffixes differing `k` characters from the end
      are different. */
  lemma SuffixesDiffer(x: string, s: string, y: string, t: string, k: nat)
    requires 1 <= k <= |s| && k <= |t| && s[|s| - k] != t[|t| - k]
    ensures x + s != y + t
  {
    var a, b := x + s, y + t;
    assert a[|a| - k] == s[|s| - k];
    assert b[|b| - k] == t[|t| - k];
  }

  /** No layer directory of one kind coincides with a layer directory of
      another kind, whatever the two container ids. */
  lemma LayerKindsDisjoint(a: string, b: string)
    ensures GetLower(a) != GetUpper(b) && GetLower(a) != GetWorker(b) && GetLower(a) != GetMerged(b)
    ensures GetUpper(a) != GetWorker(b) && GetUpper(a) != GetMerged(b)
    ensures GetWorker(a) != GetMerged(b)
    ensures GetUpper(a) != GetLower(b) && GetWorker(a) != GetLower(b) && GetMerged(a) != GetLower(b)
    ensures GetWorker(a) != GetUpper(b) && GetMerged(a) != GetUpper(b)
    ensures GetMerged(a) != GetWorker(b)
  {
    var ra, rb := RootPath + a, RootPath + b;
    // "/lower", "/upper", "/work" and "/merged" already differ in their last
    // five characters: "lower", "upper", "/work", "erged".
    SuffixesDiffer(ra, "/lower", rb, "/upper", 5);
    SuffixesDiffer(ra, "/lower", rb, "/work", 5);
    SuffixesDiffer(ra, "/lower", rb, "/merged", 5);
    SuffixesDiffer(ra, "/upper", rb, "/work", 5);
    SuffixesDiffer(ra, "/upper", rb, "/merged", 5);
    SuffixesDiffer(ra, "/work", rb, "/merged", 5);
    SuffixesDiffer(ra, "/upper", rb, "/lower", 5);
    SuffixesDiffer(ra, "/work", rb, "/lower", 5);
    SuffixesDiffer(ra, "/merged", rb, "/lower", 5);
    SuffixesDiffer(ra, "/work", rb, "/upper", 5);
    SuffixesDiffer(ra, "/merged", rb, "/upper", 5);
    SuffixesDiffer(ra, "/merged", rb, "/work", 5);
  }

  /** The id between a fixed prefix and a fixed suffix is determined by the
      whole string. */
  lemma Framed(p: string, a: string, b: string, s: string)
    requires p + a + s == p + b + s
    ensures a == b
  {
    var x, y := p + a + s, p + b + s;
    assert |a| == |b|;
    assert a == x[|p|..|p| + |a|];
    assert b == y[|p|..|p| + |b|];
  }

  /** Each layer builder is injective: distinct containers never share a
      layer directory. */
  lemma LayerPathsInjective(a: string, b: string)
    ensures GetLower(a) == GetLower(b) ==> a == b
    ensures GetUpper(a) == GetUpper(b) ==> a == b
    ensures GetWorker(a) == GetWorker(b) ==> a == b
    ensures GetMerged(a) == GetMerged(b) ==> a == b
    ensures GetRoot(a) == GetRoot(b) ==> a == b
    ensures GetImage(a) == GetImage(b) ==> a == b
  {
    if GetLower(a) == GetLower(b) { Framed(RootPath, a, b, "/lower"); }
    if GetUpper(a) == GetUpper(b) { Framed(RootPath, a, b, "/upper"); }
    if GetWorker(a) == GetWorker(b) { Framed(RootPath, a, b, "/work"); }
    if GetMerged(a) == GetMerged(b) { Framed(RootPath, a, b, "/merged"); }
    if GetRoot(a) == GetRoot(b) { Framed(RootPath, a, b, ""); }
    if GetImage(a) == GetImage(b) { Framed(ImagePath, a, b, ".tar"); }
  }

  /** The overlay option string splits at its commas into exactly the three
      `key=dir` settings, so long as no layer path holds a comma. */
  lemma OverlayOptionsSplit(lower: string, upper: string, worker: string)
    requires ',' !in lower && ',' !in upper && ',' !in worker
    ensures Split(GetOverlayFSDirs(lower, upper, worker), ',')
         == ["lowerdir=" + lower, "upperdir=" + upper, "workdir=" + worker]
  {
    var l, u, w := "lowerdir=" + lower, "upperdir=" + upper, "workdir=" + worker;
    assert ',' !in l && ',' !in u && ',' !in w;
    assert GetOverlayFSDirs(lower, upper, worker) == l + [','] + (u + [','] + w);
    SplitAfterPrefix(l, ',', u + [','] + w);
    SplitAfterPrefix(u, ',', w);
    SplitNoSeparator(w, ',');
  }
}
