/**
 * The filesystem the runner, the temporary directories and the counter-named
 * files act on: a map from absolute, normalised paths to entries. The pure
 * functions give the effect of each `os`/`shutil` call the source makes; the
 * class `FileSystem` is the process-wide filesystem those calls update.
 */
module FileSystem {
  import opened Common
  import opened Paths

  datatype Entry = File(data: string) | Dir | Link(target: string)

  /** Keys are absolute, normalised paths. */
  type Tree = map<string, Entry>

  /** Linux gives up resolving a chain of symbolic links after 40 hops. */
  const MaxSymlinks: nat := 40

  /** `d` followed by exactly one `'/'`. */
  function DirPrefix(d: string): (r: string)
    ensures d <= r && |r| > 0 && r[|r| - 1] == '/'
  {
    if d != "" && d[|d| - 1] == '/' then d else d + "/"
  }

  /** `p` names something strictly below directory `d`. */
  predicate Within(p: string, d: string)
  {
    DirPrefix(d) <= p && p != d
  }

  /** The path a symbolic link at `at` whose text is `target` points to. */
  function LinkTarget(at: string, target: string): string
  {
    NormPath(if IsAbs(target) then target else Join(Dirname(at), target))
  }

  /**
   * Follows the symbolic link chain that starts at `p`; the result is the first
   * path that is not a link (it may be absent). `None` is a chain too long to follow.
   */
  function Resolve(t: Tree, p: string, fuel: nat): (r: Option<string>)
    ensures r.Some? ==> r.value !in t || !t[r.value].Link?
    decreases fuel
  {
    if p in t && t[p].Link? then
      if fuel == 0 then None else Resolve(t, LinkTarget(p, t[p].target), fuel - 1)
    else Some(p)
  }

  /** `os.path.exists(p)`: links are followed, a dangling link does not exist. */
  predicate ExistsIn(t: Tree, p: string)
  {
    var r := Resolve(t, p, MaxSymlinks);
    r.Some? && r.value in t
  }

  /** `os.path.isdir(p)`. */
  predicate IsDirIn(t: Tree, p: string)
  {
    var r := Resolve(t, p, MaxSymlinks);
    r.Some? && r.value in t && t[r.value].Dir?
  }

  predicate ParentIsDir(t: Tree, p: string)
  {
    IsDirIn(t, Dirname(p))
  }

  /** `os.remove(p)`: removes a file or a link itself, never a directory. */
  function RemoveIn(t: Tree, p: string): (r: Result<Tree>)
    ensures r.Ok? <==> p in t && !t[p].Dir?
    ensures r.Ok? ==> r.value == t - {p}
  {
    if p in t && !t[p].Dir? then Ok(t - {p}) else Err(OSError(p))
  }

  /** `os.symlink(target, p)`: fails when `p` exists, even as a dangling link. */
  function SymlinkIn(t: Tree, target: string, p: string): (r: Result<Tree>)
    ensures r.Ok? <==> p !in t && ParentIsDir(t, p)
    ensures r.Ok? ==> r.value == t[p := Link(target)]
  {
    if p in t || !ParentIsDir(t, p) then Err(OSError(p)) else Ok(t[p := Link(target)])
  }

  /** `os.mkdir(p)`. */
  function MakeDirIn(t: Tree, p: string): (r: Result<Tree>)
    ensures r.Ok? <==> p !in t && ParentIsDir(t, p)
    ensures r.Ok? ==> r.value == t[p := Dir]
  {
    if p in t || !ParentIsDir(t, p) then Err(OSError(p)) else Ok(t[p := Dir])
  }

  /** Reading the whole of `p`, following links. */
  function ReadIn(t: Tree, p: string): (r: Result<string>)
    ensures r.Ok? ==> ExistsIn(t, p)
    ensures r.Err? ==> r.error == OSError(p)
  {
    var q := Resolve(t, p, MaxSymlinks);
    if q.Some? && q.value in t && t[q.value].File? then Ok(t[q.value].data)
    else Err(OSError(p))
  }

  /**
   * `open(p, 'w')` followed by writing `data`: a link is written through, a
   * missing file is created in an existing directory.
   */
  function WriteIn(t: Tree, p: string, data: string): (r: Result<Tree>)
    ensures r.Ok? ==> (Resolve(t, p, MaxSymlinks).Some?
      && r.value == t[Resolve(t, p, MaxSymlinks).value := File(data)])
    ensures r.Err? ==> r.error == OSError(p)
  {
    match Resolve(t, p, MaxSymlinks)
    case None => Err(OSError(p))
    case Some(q) =>
      if (q in t && t[q].Dir?) || !ParentIsDir(t, q) then Err(OSError(p))
      else Ok(t[q := File(data)])
  }

  /** The destination `shutil.copy(src, dst)` writes to. */
  function CopyDestination(t: Tree, src: string, dst: string): string
  {
    if IsDirIn(t, dst) then NormPath(Join(dst, Basename(src))) else dst
  }

  /** `shutil.copy(src, dst)`: the contents of `src`, following links, land in `dst`. */
  function CopyIn(t: Tree, src: string, dst: string): (r: Result<Tree>)
    ensures r.Err? ==> r.error.OSError?
  {
    match ReadIn(t, src)
    case Err(e) => Err(e)
    case Ok(data) => WriteIn(t, CopyDestination(t, src, dst), data)
  }

  /** `shutil.rmtree(d)`: `d` must be a real directory; it goes with everything below it. */
  function RmTreeIn(t: Tree, d: string): (r: Result<Tree>)
    ensures r.Ok? <==> d in t && t[d].Dir?
  {
    if d in t && t[d].Dir? then Ok(map q | q in t && q != d && !Within(q, d) :: t[q])
    else Err(OSError(d))
  }

  /** The name under `dst` of the entry `q` below `src`. */
  function Rebase(q: string, src: string, dst: string): string
    requires DirPrefix(src) <= q
  {
    DirPrefix(dst) + q[|DirPrefix(src)|..]
  }

  lemma RebaseInjective(q1: string, q2: string, src: string, dst: string)
    requires DirPrefix(src) <= q1 && DirPrefix(src) <= q2
    requires Rebase(q1, src, dst) == Rebase(q2, src, dst)
    ensures q1 == q2
  {
    var n := |DirPrefix(dst)|;
    assert q1[|DirPrefix(src)|..] == Rebase(q1, src, dst)[n..];
    assert q2[|DirPrefix(src)|..] == Rebase(q2, src, dst)[n..];
    assert q1 == DirPrefix(src) + q1[|DirPrefix(src)|..];
    assert q2 == DirPrefix(src) + q2[|DirPrefix(src)|..];
  }

  /** The entries below `src`, renamed to lie below `dst`. */
  function CopiesBelow(t: Tree, src: string, dst: string): (c: Tree)
    ensures forall q :: q in t && Within(q, src) ==>
      Rebase(q, src, dst) in c && c[Rebase(q, src, dst)] == t[q]
    ensures forall k :: k in c ==> DirPrefix(dst) <= k
  {
    assert forall q1, q2 :: (q1 in t && Within(q1, src) && q2 in t && Within(q2, src)
      && Rebase(q1, src, dst) == Rebase(q2, src, dst)) ==> q1 == q2 by {
      forall q1, q2 | q1 in t && Within(q1, src) && q2 in t && Within(q2, src)
        && Rebase(q1, src, dst) == Rebase(q2, src, dst)
        ensures q1 == q2
      {
        RebaseInjective(q1, q2, src, dst);
      }
    }
    map q | q in t && Within(q, src) :: Rebase(q, src, dst) := t[q]
  }

  /**
   * `shutil.copytree(src, dst, symlinks=True)`: `dst` is created, and files,
   * directories and links (as links, with their text) below `src` are copied.
   */
  function CopyTreeIn(t: Tree, src: string, dst: string): (r: Result<Tree>)
    ensures r.Ok? <==> IsDirIn(t, src) && dst !in t && ParentIsDir(t, dst)
  {
    if !IsDirIn(t, src) then Err(OSError(src))
    else if dst in t || !ParentIsDir(t, dst) then Err(OSError(dst))
    else
      var s := Resolve(t, src, MaxSymlinks).value;
      Ok(t[dst := Dir] + CopiesBelow(t, s, dst))
  }

  /** `rmtree` removes exactly the directory and what lies below it. */
  lemma RmTreeRemovesBelow(t: Tree, d: string, q: string)
    requires RmTreeIn(t, d).Ok?
    ensures q in RmTreeIn(t, d).value <==> q in t && q != d && !Within(q, d)
    ensures q in RmTreeIn(t, d).value ==> RmTreeIn(t, d).value[q] == t[q]
  {
  }

  /**
   * `copytree` creates the destination directory and a copy of every entry
   * below the source; entries outside the destination stay as they were.
   */
  lemma CopyTreeCopies(t: Tree, src: string, dst: string, q: string)
    requires CopyTreeIn(t, src, dst).Ok?
    requires DirPrefix(dst) != dst  // a normalised name, not the root
    ensures var s := Resolve(t, src, MaxSymlinks).value;
      var r := CopyTreeIn(t, src, dst).value;
      dst in r && r[dst] == Dir
      && (q in t && Within(q, s) ==> Rebase(q, s, dst) in r && r[Rebase(q, s, dst)] == t[q])
      && (q in t && q != dst && !Within(q, dst) ==> q in r && r[q] == t[q])
  {
    var s := Resolve(t, src, MaxSymlinks).value;
    var c := CopiesBelow(t, s, dst);
    assert dst !in c;
  }

  /** The process-wide filesystem, with the environment relative paths are read against. */
  class FileSystem {
    const env: Env
    var tree: Tree

    constructor(env: Env, tree: Tree)
      ensures this.env == env && this.tree == tree
    {
      this.env := env;
      this.tree := tree;
    }

    /** The key of a path as the process names it. */
    function Key(p: string): string
    {
      AbsPath(env, p)
    }

    predicate Exists(p: string)
      reads this
    {
      ExistsIn(tree, Key(p))
    }

    /** Commits the outcome of one filesystem call. */
    method Commit(r: Result<Tree>) returns (o: Outcome)
      modifies this
      ensures o == OutcomeOf(r)
      ensures tree == if r.Ok? then r.value else old(tree)
    {
      if r.Ok? {
        tree := r.value;
        o := Pass;
      } else {
        o := Fail(r.error);
      }
    }

    method Remove(p: string) returns (o: Outcome)
      modifies this
      ensures o == OutcomeOf(RemoveIn(old(tree), Key(p)))
      ensures tree == Updated(old(tree), RemoveIn(old(tree), Key(p)))
    {
      o := Commit(RemoveIn(tree, Key(p)));
    }

    method Symlink(target: string, p: string) returns (o: Outcome)
      modifies this
      ensures o == OutcomeOf(SymlinkIn(old(tree), target, Key(p)))
      ensures tree == Updated(old(tree), SymlinkIn(old(tree), target, Key(p)))
    {
      o := Commit(SymlinkIn(tree, target, Key(p)));
    }

    method Copy(src: string, dst: string) returns (o: Outcome)
      modifies this
      ensures o == OutcomeOf(CopyIn(old(tree), Key(src), Key(dst)))
      ensures tree == Updated(old(tree), CopyIn(old(tree), Key(src), Key(dst)))
    {
      o := Commit(CopyIn(tree, Key(src), Key(dst)));
    }

    /** `open(p, 'w')`: an empty file. */
    method Create(p: string) returns (o: Outcome)
      modifies this
      ensures o == OutcomeOf(WriteIn(old(tree), Key(p), ""))
      ensures tree == Updated(old(tree), WriteIn(old(tree), Key(p), ""))
    {
      o := Commit(WriteIn(tree, Key(p), ""));
    }

    method RmTree(d: string) returns (o: Outcome)
      modifies this
      ensures o == OutcomeOf(RmTreeIn(old(tree), Key(d)))
      ensures tree == Updated(old(tree), RmTreeIn(old(tree), Key(d)))
    {
      o := Commit(RmTreeIn(tree, Key(d)));
    }

    method CopyTree(src: string, dst: string) returns (o: Outcome)
      modifies this
      ensures o == OutcomeOf(CopyTreeIn(old(tree), Key(src), Key(dst)))
      ensures tree == Updated(old(tree), CopyTreeIn(old(tree), Key(src), Key(dst)))
    {
      o := Commit(CopyTreeIn(tree, Key(src), Key(dst)));
    }

    /**
     * `tempfile.mkdtemp(prefix=prefix, dir=base)`: a new directory named
     * `prefix` plus the random part `name`, in `base` or the system temp dir.
     */
    method MkdTemp(prefix: string, base: Option<string>, name: string) returns (r: Result<string>)
      modifies this
      ensures r == ResultAs(MakeDirIn(old(tree), Key(TempPath(env, prefix, base, name))),
                            TempPath(env, prefix, base, name))
      ensures tree == Updated(old(tree), MakeDirIn(old(tree), Key(TempPath(env, prefix, base, name))))
    {
      var path := TempPath(env, prefix, base, name);
      var o := Commit(MakeDirIn(tree, Key(path)));
      r := if o.Pass? then Ok(path) else Err(o.error);
    }
  }

  /** The path `mkdtemp` creates, as it returns it. */
  function TempPath(env: Env, prefix: string, base: Option<string>, name: string): string
  {
    Join(if base.Some? then base.value else env.tempdir, prefix + name)
  }

  function OutcomeOf<T>(r: Result<T>): Outcome
  {
    if r.Ok? then Pass else Fail(r.error)
  }

  function Updated(t: Tree, r: Result<Tree>): Tree
  {
    if r.Ok? then r.value else t
  }

  function ResultAs<T, U>(r: Result<T>, v: U): Result<U>
  {
    if r.Ok? then Ok(v) else Err(r.error)
  }
}
