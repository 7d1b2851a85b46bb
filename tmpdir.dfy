/**
 * `astwro.utils.TmpDir`: the working directory a runner owns. A directory the
 * object created itself (`dir_is_tmp`) is deleted on teardown and copied on
 * clone; a directory it was handed is never deleted, and its clones share it.
 */
module TempDirs {
  import opened Common
  import opened Paths
  import opened FileSystem

  const DefaultPrefix := "astwro_tmp_"

  /**
   * What a clone of a temporary directory does to the tree: `mkdtemp` creates
   * `dst`, `rmtree` removes it again and `copytree(src, dst, symlinks=True)`
   * recreates it as a copy of `src`.
   */
  function CloneTree(t: Tree, src: string, dst: string): Result<Tree>
  {
    match MakeDirIn(t, dst)
    case Err(e) => Err(e)
    case Ok(t1) =>
      match RmTreeIn(t1, dst)
      case Err(e) => Err(e)
      case Ok(t2) => CopyTreeIn(t2, src, dst)
  }

  /**
   * A clone of a real directory `src` is a copy of everything below it, and
   * nothing outside the clone changes.
   */
  lemma CloneTreeCopies(t: Tree, src: string, dst: string, q: string)
    requires CloneTree(t, src, dst).Ok? && DirPrefix(dst) != dst
    requires src in t && t[src].Dir? && src != dst && !Within(src, dst)
    requires q in t && q != dst && !Within(q, dst)
    ensures var r := CloneTree(t, src, dst).value;
      dst in r && r[dst] == Dir
      && (Within(q, src) ==> Rebase(q, src, dst) in r && r[Rebase(q, src, dst)] == t[q])
      && q in r && r[q] == t[q]
  {
    var t1 := MakeDirIn(t, dst).value;
    var t2 := RmTreeIn(t1, dst).value;
    RmTreeRemovesBelow(t1, dst, q);
    RmTreeRemovesBelow(t1, dst, src);
    assert Resolve(t2, src, MaxSymlinks) == Some(src);
    CopyTreeCopies(t2, src, dst, q);
  }

  /** `repr(tmpdir)`. */
  function ReprText(dirIsTmp: bool, path: string): (r: string)
  {
    (if dirIsTmp then "Tmp dir:" else "Ext dir:") + (if path != "" then path else "none")
  }

  /**
   * The representation tells an owned directory from a borrowed one and names
   * its path (an empty path and the path `none` print alike).
   */
  lemma ReprDecodes(tmp1: bool, path1: string, tmp2: bool, path2: string)
    requires ReprText(tmp1, path1) == ReprText(tmp2, path2)
    ensures tmp1 == tmp2
    ensures path1 == path2 || (path1 in {"", "none"} && path2 in {"", "none"})
  {
    var r1 := ReprText(tmp1, path1);
    var r2 := ReprText(tmp2, path2);
    assert r1[..8] == (if tmp1 then "Tmp dir:" else "Ext dir:");
    assert r2[..8] == (if tmp2 then "Tmp dir:" else "Ext dir:");
    assert r1[8..] == (if path1 != "" then path1 else "none");
    assert r2[8..] == (if path2 != "" then path2 else "none");
  }

  class TmpDir {
    const fs: FileSystem
    const path: string
    const dirIsTmp: bool
    const prefix: string
    const base: Option<string>

    constructor Of(fs: FileSystem, path: string, dirIsTmp: bool, prefix: string, base: Option<string>)
      ensures this.fs == fs && this.path == path && this.dirIsTmp == dirIsTmp
      ensures this.prefix == prefix && this.base == base
    {
      this.fs := fs;
      this.path := path;
      this.dirIsTmp := dirIsTmp;
      this.prefix := prefix;
      this.base := base;
    }

    /**
     * `TmpDir(use_existing, prefix, base_dir)`: without a directory to use,
     * `mkdtemp` creates one (`name` is the random part of its name) and the
     * object owns it; otherwise the object points at the given path.
     */
    static method New(fs: FileSystem, useExisting: Option<string>, prefix: string, base: Option<string>, name: string)
      returns (r: Result<TmpDir>)
      modifies fs
      ensures r.Ok? ==> fresh(r.value) && r.value.fs == fs
      ensures r.Ok? ==> r.value.prefix == prefix && r.value.base == base
      ensures useExisting.Some? ==>
        r.Ok? && r.value.path == useExisting.value && !r.value.dirIsTmp && fs.tree == old(fs.tree)
      ensures useExisting.None? ==>
        var p := TempPath(fs.env, prefix, base, name);
        var made := MakeDirIn(old(fs.tree), fs.Key(p));
        fs.tree == Updated(old(fs.tree), made)
        && (r.Ok? <==> made.Ok?)
        && (r.Ok? ==> r.value.path == p && r.value.dirIsTmp)
        && (r.Err? ==> r.error == made.error)
    {
      if useExisting.Some? {
        var d := new TmpDir.Of(fs, useExisting.value, false, prefix, base);
        return Ok(d);
      }
      var p := fs.MkdTemp(prefix, base, name);
      if p.Err? {
        return Err(p.error);
      }
      var d := new TmpDir.Of(fs, p.value, true, prefix, base);
      r := Ok(d);
    }

    /**
     * `clone()`, that is `deepcopy`: an owned directory is copied into a new
     * temporary directory with the same prefix and base; a borrowed one is
     * shared, through a new object built with the default arguments.
     */
    method Clone(name: string) returns (r: Result<TmpDir>)
      modifies fs
      ensures r.Ok? ==> fresh(r.value) && r.value.fs == fs && r.value.dirIsTmp == dirIsTmp
      ensures !dirIsTmp ==>
        r.Ok? && r.value.path == path && r.value.prefix == DefaultPrefix && r.value.base == None
        && fs.tree == old(fs.tree)
      ensures dirIsTmp ==>
        var p := TempPath(fs.env, prefix, base, name);
        var cloned := CloneTree(old(fs.tree), fs.Key(path), fs.Key(p));
        (r.Ok? <==> cloned.Ok?)
        && (r.Ok? ==> r.value.path == p && r.value.prefix == prefix && r.value.base == base
                      && fs.tree == cloned.value)
        && (r.Ok? ==> fs.Key(p) !in old(fs.tree))
        && (r.Ok? && fs.Key(path) in old(fs.tree) ==> r.value.path != path)
        && (r.Err? ==> r.error == cloned.error)
    {
      if !dirIsTmp {
        r := New(fs, Some(path), DefaultPrefix, None, name);
        return;
      }
      var made := New(fs, None, prefix, base, name);
      if made.Err? {
        return Err(made.error);
      }
      var d := made.value;
      var o := fs.RmTree(d.path);
      if o.Fail? {
        return Err(o.error);
      }
      o := fs.CopyTree(path, d.path);
      if o.Fail? {
        return Err(o.error);
      }
      r := Ok(d);
    }

    /** `_rm_dir`: an owned directory goes with its contents; errors are swallowed. */
    method RmDir()
      modifies fs
      ensures fs.tree == if dirIsTmp then Updated(old(fs.tree), RmTreeIn(old(fs.tree), fs.Key(path))) else old(fs.tree)
    {
      if dirIsTmp {
        var _ := fs.RmTree(path);
      }
    }

    /** `repr(tmpdir)`: which kind of directory, and its path; `str(tmpdir)` is `path` itself. */
    function Repr(): (r: string)
      reads this
      ensures |r| >= 8 && r[..8] == if dirIsTmp then "Tmp dir:" else "Ext dir:"
      ensures path != "" ==> r[8..] == path
    {
      ReprText(dirIsTmp, path)
    }
  }
}
