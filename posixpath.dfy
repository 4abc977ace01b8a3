/** The two `os.path` operations the core uses, as POSIX `posixpath` defines them. */
module PosixPath {

  /**
    `os.path.join(a, b)` for two components: an absolute `b` replaces `a`;
    otherwise `b` is appended, with a `/` in between unless `a` is empty or
    already ends in one.
   */
  function Join(a: string, b: string): (r: string)
    ensures |b| <= |r| && r[|r| - |b|..] == b
    ensures b != [] ==> r != []
    ensures |r| == |b| || r[|r| - |b| - 1] == '/'
    ensures (b == [] || b[0] != '/') ==> |a| <= |r| && r[..|a|] == a
    ensures (b == [] || b[0] != '/') ==> |r| <= |a| + 1 + |b|
    ensures b != [] && b[0] == '/' ==> r == b
    ensures (b == [] || b[0] != '/') ==>
      |r| == |a| + |b| + (if a == [] || a[|a| - 1] == '/' then 0 else 1)
  {
    if b != [] && b[0] == '/' then b
    else if a == [] || a[|a| - 1] == '/' then a + b
    else a + "/" + b
  }

  /** `os.path.basename(p)`: what follows the last `/`, or all of `p` when it has none. */
  function Basename(p: string): (r: string)
    ensures |r| <= |p| && r == p[|p| - |r|..]
    ensures '/' !in r
    ensures |r| == |p| || p[|p| - |r| - 1] == '/'
  {
    if p == [] || p[|p| - 1] == '/' then [] else Basename(p[..|p| - 1]) + [p[|p| - 1]]
  }

  /** The basename of a joined path is the file name that was joined on. */
  lemma BasenameOfJoin(dir: string, name: string)
    requires '/' !in name
    ensures Basename(Join(dir, name)) == name
  {
  }
}
