/** The part of the file system the preprocessing driver touches: a map from path to
    node, with the two library operations it performs itself, `maybe_mkdir_p` and
    distutils' `copy_file(src, dst, update=True)`. */
module Files {
  import opened Wrappers
  import opened Paths

  type Content = string

  /** A regular file carries its bytes and its modification time in whole seconds,
      the resolution distutils compares; a directory carries nothing. */
  datatype Node = File(content: Content, mtime: int) | Directory

  type FileSystem = map<Path, Node>

  datatype FsError =
    | NotARegularFile(path: Path)   // copy_file: source missing or not a regular file
    | IsADirectory(path: Path)      // copy_file: destination is an existing directory
    | NotADirectory(path: Path)     // maybe_mkdir_p: a file is in the way

  predicate IsFile(fs: FileSystem, p: Path) {
    p in fs && fs[p].File?
  }

  predicate IsDir(fs: FileSystem, p: Path) {
    p in fs && fs[p].Directory?
  }

  /** `maybe_mkdir_p(p)`: afterwards `p` is a directory; an existing directory is
      left as it is, an existing file makes it fail. */
  function MakeDirs(fs: FileSystem, p: Path): (r: Result<FileSystem, FsError>)
    ensures r.Failure? <==> IsFile(fs, p)
    ensures r.Failure? ==> r.error == NotADirectory(p)
    ensures r.Success? ==> IsDir(r.value, p) && r.value - {p} == fs - {p}
    ensures r.Success? && IsDir(fs, p) ==> r.value == fs
  {
    if IsFile(fs, p) then Failure(NotADirectory(p)) else Success(fs[p := Directory])
  }

  /** `copy_file(src, dst, update=True)`: the source must be a regular file; it is
      copied, content and modification time together, only when `dst` does not exist
      or is strictly older. The second component of the result says whether it was. */
  function CopyIfNewer(fs: FileSystem, src: Path, dst: Path): (r: Result<(FileSystem, bool), FsError>)
    ensures r.Failure? <==> !IsFile(fs, src) || IsDir(fs, dst)
    ensures r.Failure? ==> r.error == if !IsFile(fs, src) then NotARegularFile(src) else IsADirectory(dst)
    ensures r.Success? ==> (r.value.1 <==> dst !in fs || fs[src].mtime > fs[dst].mtime)
    ensures r.Success? ==> r.value.0 - {dst} == fs - {dst}
    ensures r.Success? ==> IsFile(r.value.0, dst) && r.value.0[dst].mtime >= fs[src].mtime
    ensures r.Success? && r.value.1 ==> r.value.0[dst] == fs[src]
    ensures r.Success? && !r.value.1 ==> r.value.0 == fs
  {
    if !IsFile(fs, src) then Failure(NotARegularFile(src))
    else if IsDir(fs, dst) then Failure(IsADirectory(dst))
    else if dst in fs && fs[src].mtime <= fs[dst].mtime then Success((fs, false))
    else Success((fs[dst := fs[src]], true))
  }

  /** Copying again straight after a copy changes nothing: the copy carries the
      source's modification time, so it is no longer older than the source. */
  lemma CopyIfNewerTwice(fs: FileSystem, src: Path, dst: Path)
    requires CopyIfNewer(fs, src, dst).Success?
    requires src != dst
    ensures var fs1 := CopyIfNewer(fs, src, dst).value.0;
            CopyIfNewer(fs1, src, dst) == Success((fs1, false))
  {
  }

  /** A copy leaves every path but its destination as it was. */
  lemma CopyIfNewerElsewhere(fs: FileSystem, src: Path, dst: Path, p: Path)
    requires CopyIfNewer(fs, src, dst).Success? && p != dst
    ensures var next := CopyIfNewer(fs, src, dst).value.0;
            (p in next <==> p in fs) && (p in fs ==> next[p] == fs[p])
  {
  }
}
