/** POSIX path strings as the scripts build and take apart: `os.path.join` for two
    components and `path.split('/')[-1]`. */
module Paths {

  type Path = string

  /** `os.path.join(a, b)` on POSIX: an absolute `b` replaces `a`; otherwise `b` is
      appended to `a`, with a separating '/' unless `a` is empty or already ends in one. */
  function Join(a: Path, b: Path): (r: Path)
    ensures |b| <= |r| && r[|r| - |b|..] == b
    ensures (b == [] || b[0] != '/') ==> a <= r && |r| <= |a| + 1 + |b|
    ensures (b == [] || b[0] != '/') && |r| > |a| + |b| ==> r[|a|] == '/'
    ensures b != [] && b[0] == '/' ==> r == b
    ensures (b == [] || b[0] != '/') ==>
              |a| + |b| <= |r| && (|r| == |a| + |b| <==> a == [] || a[|a| - 1] == '/')
  {
    if b != [] && b[0] == '/' then b
    else if a == [] || a[|a| - 1] == '/' then a + b
    else a + "/" + b
  }

  /** Where the last '/'-separated segment of `p` starts: just after its last '/', or 0. */
  function SegmentStart(p: Path): (k: nat)
    ensures k <= |p|
    decreases |p|
  {
    if p == [] || p[|p| - 1] == '/' then |p|
    else SegmentStart(p[..|p| - 1])
  }

  /** The last '/'-separated segment of `p`, i.e. `p.split('/')[-1]`. */
  function Basename(p: Path): Path {
    p[SegmentStart(p)..]
  }

  /** The segment start follows the last '/' of `p`: no '/' comes after it. */
  lemma {:induction false} SegmentStartAfterLastSlash(p: Path)
    ensures var k := SegmentStart(p);
            (k == 0 || p[k - 1] == '/') && forall i :: k <= i < |p| ==> p[i] != '/'
    decreases |p|
  {
    if p != [] && p[|p| - 1] != '/' {
      var init := p[..|p| - 1];
      SegmentStartAfterLastSlash(init);
      assert forall i :: 0 <= i < |init| ==> init[i] == p[i];
    }
  }

  /** `Basename(p)` holds no '/', ends `p`, and is all of `p` or follows a '/' in it. */
  lemma BasenameIsLastSegment(p: Path)
    ensures var r := Basename(p);
            '/' !in r && |r| <= |p| && p[|p| - |r|..] == r && (|r| < |p| ==> p[|p| - |r| - 1] == '/')
  {
    SegmentStartAfterLastSlash(p);
  }

  /** The three properties in the contract of `Basename` determine it. */
  lemma BasenameUnique(p: Path, r: Path)
    requires '/' !in r
    requires |r| <= |p| && p[|p| - |r|..] == r
    requires |r| == |p| || p[|p| - |r| - 1] == '/'
    ensures r == Basename(p)
  {
    var b := Basename(p);
    BasenameIsLastSegment(p);
    if |r| != |b| {
      assert false;
    }
    assert r == p[|p| - |r|..] == b;
  }

  /** Joining a name without '/' onto a directory and taking the last segment gives the
      name back: a copy made with `join(dir, name)` keeps its file name. */
  lemma JoinBasename(dir: Path, name: Path)
    requires '/' !in name
    ensures Basename(Join(dir, name)) == name
  {
    var r := Join(dir, name);
    if name != [] {
      assert name[0] in name;
    }
    if |name| < |r| {
      assert r[|r| - |name| - 1] == '/';
    }
    BasenameUnique(r, name);
  }
}
