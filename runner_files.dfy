/**
 * The runner's working-directory bookkeeping, as pure functions: the local
 * names of outside files, how `_prepare_io_file` maps a path, how the
 * runner directory is obtained, and the filesystem effect of linking,
 * removing and copying back files.
 */
module RunnerFiles {
  import opened Common
  import opened Paths
  import opened FileSystem
  import opened TempDirs

  const HexDigits := "0123456789abcdef"

  predicate IsHexDigest(h: string)
  {
    |h| == 32 && forall i :: 0 <= i < |h| ==> h[i] in HexDigits
  }

  /** An MD5 `hexdigest()`: 32 lower-case hexadecimal digits. */
  type Digest = h: string | IsHexDigest(h) witness "00000000000000000000000000000000"

  /** What `hashlib.md5` is given: a `str`, or the bytes of one. */
  datatype HashInput = Text(text: string) | Bytes(bytes: string)

  const HashNeedsBytes := "Strings must be encoded before hashing"

  /** `hashlib.md5(x).hexdigest()`; `md5` is the digest of a byte string. */
  function HexDigest(md5: string -> Digest, x: HashInput): (r: Result<Digest>)
    ensures r.Err? <==> x.Text?
    ensures r.Ok? ==> r.value == md5(x.bytes)
  {
    match x
    case Text(_) => Err(TypeError(HashNeedsBytes))
    case Bytes(b) => Ok(md5(b))
  }

  /** The local name for `filepath` from the digest of its signature, or the error hashing raised. */
  function NameWithDigest(h: Result<Digest>, filepath: string, prefix: string, suffix: string): Result<string>
  {
    if h.Err? then Err(h.error) else Ok(prefix + h.value[..6] + "_" + Basename(filepath) + suffix)
  }

  /**
   * `_runner_dir_file_name` as written: under Python 3 `str(signature)` is
   * text, and `hashlib.md5` refuses text.
   */
  function RunnerDirFileNameAsWritten(md5: string -> Digest, filepath: string, prefix: string,
                                      suffix: string, signature: Option<string>): Result<string>
  {
    var sig := if signature.Some? then signature.value else filepath;
    NameWithDigest(HexDigest(md5, Text(sig)), filepath, prefix, suffix)
  }

  /** As written, no file name is ever produced: every call raises `TypeError`. */
  lemma RunnerDirFileNameAsWrittenFails(md5: string -> Digest, filepath: string, prefix: string,
                                        suffix: string, signature: Option<string>)
    ensures RunnerDirFileNameAsWritten(md5, filepath, prefix, suffix, signature)
      == Err(TypeError(HashNeedsBytes))
  {
  }

  /**
   * `_runner_dir_file_name` with the signature hashed as (ASCII) bytes:
   * prefix, the first six hex digits of the digest, `_`, the base name, suffix.
   */
  function RunnerDirFileName(md5: string -> Digest, filepath: string, prefix: string,
                             suffix: string, signature: Option<string>): (r: string)
    ensures |r| == |prefix| + 7 + |Basename(filepath)| + |suffix|
  {
    var sig := if signature.Some? then signature.value else filepath;
    NameWithDigest(HexDigest(md5, Bytes(sig)), filepath, prefix, suffix).value
  }

  /** The parts a local name is made of can be read back from it. */
  lemma LocalNameParts(md5: string -> Digest, filepath: string, prefix: string,
                       suffix: string, signature: Option<string>)
    ensures var r := RunnerDirFileName(md5, filepath, prefix, suffix, signature);
      var sig := if signature.Some? then signature.value else filepath;
      var n := |prefix|;
      r[..n] == prefix && r[n..n + 6] == md5(sig)[..6] && r[n + 6] == '_'
      && r[n + 7..|r| - |suffix|] == Basename(filepath) && r[|r| - |suffix|..] == suffix
  {
    var r := RunnerDirFileName(md5, filepath, prefix, suffix, signature);
    var sig := if signature.Some? then signature.value else filepath;
    var n := |prefix|;
    var b := Basename(filepath);
    assert r == prefix + (md5(sig)[..6] + ("_" + (b + suffix)));
    assert r[n..] == md5(sig)[..6] + ("_" + (b + suffix));
    assert r[n + 6..] == "_" + (b + suffix);
    assert r[n + 7..] == b + suffix;
  }

  /**
   * Two outside files get the same local name (for one prefix and suffix)
   * only when their base names and the digest prefixes of their signatures agree.
   */
  lemma LocalNameDecodes(md5: string -> Digest, f1: string, f2: string, prefix: string, suffix: string)
    requires RunnerDirFileName(md5, f1, prefix, suffix, None) == RunnerDirFileName(md5, f2, prefix, suffix, None)
    ensures Basename(f1) == Basename(f2) && md5(f1)[..6] == md5(f2)[..6]
  {
    LocalNameParts(md5, f1, prefix, suffix, None);
    LocalNameParts(md5, f2, prefix, suffix, None);
  }

  /** Without a `'/'` in prefix and suffix, a local name is a bare file name. */
  lemma LocalNameIsBare(md5: string -> Digest, filepath: string, prefix: string,
                        suffix: string, signature: Option<string>)
    requires '/' !in prefix && '/' !in suffix
    ensures '/' !in RunnerDirFileName(md5, filepath, prefix, suffix, signature)
  {
    var r := RunnerDirFileName(md5, filepath, prefix, suffix, signature);
    var sig := if signature.Some? then signature.value else filepath;
    var h := md5(sig)[..6];
    var b := Basename(filepath);
    BasenameIsWholePath(filepath);
    assert r == prefix + h + "_" + b + suffix;
    assert forall j :: 0 <= j < |h| ==> h[j] == md5(sig)[j] && h[j] in HexDigits;
    forall j | 0 <= j < |r|
      ensures r[j] != '/'
    {
      if j < |prefix| {
        assert r[j] == prefix[j];
      } else if j < |prefix| + 6 {
        assert r[j] == h[j - |prefix|];
      } else if j == |prefix| + 6 {
        assert r[j] == '_';
      } else if j < |prefix| + 7 + |b| {
        assert r[j] == b[j - |prefix| - 7];
      } else {
        assert r[j] == suffix[j - |prefix| - 7 - |b|];
      }
    }
  }

  // ---------------------------------------------------------- runner directory

  /** What `_prepare_dir` is given as `dir`. */
  datatype DirArg = NoDir | DirPath(path: string) | DirObject(tmp: TmpDir) | OtherDir

  /** Where the runner directory comes from: a new temporary one, an existing path, or the object given. */
  datatype DirSource = FreshTemp(prefix: string) | ExistingPath(path: string) | GivenObject(tmp: TmpDir)

  const RunnerTmpPrefix := "pydaophot_tmp"
  const DirTypeMessage := "dir must be either: TmpDir object, str, None"

  /** The keyword `astwro.utils.tmpdir` takes for an existing directory. */
  const ExistingKeyword := "use_exiting"

  /**
   * `tmpdir(**{keyword: path})`: the one keyword `tmpdir` takes for an
   * existing directory, or a `TypeError` for a keyword it does not take.
   */
  function TmpDirWith(keyword: string, path: string): (r: Result<DirSource>)
    ensures r.Ok? <==> keyword == ExistingKeyword
    ensures r.Ok? ==> r.value == ExistingPath(path)
  {
    if keyword == ExistingKeyword then Ok(ExistingPath(path))
    else Err(TypeError("tmpdir() got an unexpected keyword argument '" + keyword + "'"))
  }

  /** `_prepare_dir` as written: a path is passed on as `use_existing`. */
  function PrepareDirAsWritten(d: DirArg): Result<DirSource>
  {
    match d
    case NoDir => Ok(FreshTemp(RunnerTmpPrefix))
    case DirPath(p) => TmpDirWith("use_existing", p)
    case DirObject(t) => Ok(GivenObject(t))
    case OtherDir => Err(RunnerTypeError(DirTypeMessage))
  }

  /** `_prepare_dir` with a path used as the existing directory. */
  function PrepareDir(d: DirArg): (r: Result<DirSource>)
    ensures r.Err? <==> d.OtherDir?
    ensures d.NoDir? ==> r == Ok(FreshTemp(RunnerTmpPrefix))
    ensures d.DirPath? ==> r == Ok(ExistingPath(d.path))
    ensures d.DirObject? ==> r == Ok(GivenObject(d.tmp))
  {
    match d
    case NoDir => Ok(FreshTemp(RunnerTmpPrefix))
    case DirPath(p) => TmpDirWith(ExistingKeyword, p)
    case DirObject(t) => Ok(GivenObject(t))
    case OtherDir => Err(RunnerTypeError(DirTypeMessage))
  }

  /** As written, every path is refused; on any other argument the two agree. */
  lemma PrepareDirAsWrittenRejectsPaths(d: DirArg)
    ensures d.DirPath? ==> PrepareDirAsWritten(d).Err? && PrepareDirAsWritten(d).error.TypeError?
    ensures !d.DirPath? ==> PrepareDirAsWritten(d) == PrepareDir(d)
  {
  }

  // ---------------------------------------------------------------- file paths

  /**
   * `absolute_path`: a bare file name is taken in the runner directory,
   * anything else is expanded to an absolute path.
   */
  function AbsolutePath(env: Env, dirPath: string, path: string): (r: string)
    ensures '/' !in path ==> r == Join(dirPath, path)
    ensures '/' in path ==> r == ExpandPath(env, Some(path))
    ensures '/' in path && IsAbs(env.cwd) ==> IsAbs(r)
  {
    BasenameIsWholePath(path);
    assert IsAbs(env.cwd) ==> IsAbs(ExpandPath(env, Some(path))) by {
      if IsAbs(env.cwd) {
        AbsPathIsAbs(env, ExpandUser(env, path));
      }
    }
    if Basename(path) != path then ExpandPath(env, Some(path)) else Join(dirPath, path)
  }

  /** How `_prepare_io_file` maps a non-empty path: its local name, its absolute path, and whether it lies outside. */
  datatype IoPlan = IoPlan(local: string, absolute: string, external: bool)

  /**
   * A path into the runner directory is cut to its base name; a bare name
   * is local; anything else is an outside file, named locally by the digest
   * of its expanded path.
   */
  function PlanIo(env: Env, md5: string -> Digest, dirPath: string, path: string): (r: IoPlan)
    ensures '/' !in r.local
    ensures !r.external ==> r.absolute == Join(dirPath, r.local)
    ensures r.external ==>
      r.absolute == ExpandPath(env, Some(path)) && r.local == RunnerDirFileName(md5, r.absolute, "", "", None)
    ensures Dirname(AbsPath(env, path)) == dirPath ==> !r.external && r.local == Basename(path)
    ensures r.external <==> Dirname(AbsPath(env, path)) != dirPath && '/' in path
    ensures !r.external && Dirname(AbsPath(env, path)) != dirPath ==> r.local == path
  {
    var p := if Dirname(AbsPath(env, path)) == dirPath then Basename(path) else path;
    BasenameIsWholePath(path);
    BasenameIsWholePath(p);
    if Basename(p) != p then
      var absolute := ExpandPath(env, Some(p));
      LocalNameIsBare(md5, absolute, "", "", None);
      IoPlan(RunnerDirFileName(md5, absolute, "", "", None), absolute, true)
    else IoPlan(p, Join(dirPath, p), false)
  }

  /** The key of `name` inside the runner directory. */
  function InDir(env: Env, dirPath: string, name: string): string
  {
    AbsPath(env, Join(dirPath, name))
  }

  /**
   * `link_to_runner_dir(source, name)`: an old entry `name` is removed
   * (errors ignored), then a link to the expanded source takes its place.
   */
  function LinkIn(t: Tree, env: Env, dirPath: string, source: string, name: string): (r: (Tree, Outcome))
    ensures r.1.Fail? ==> r.1.error == OSError(InDir(env, dirPath, name))
  {
    var dest := InDir(env, dirPath, name);
    var t1 := Updated(t, RemoveIn(t, dest));
    var made := SymlinkIn(t1, ExpandPath(env, Some(source)), dest);
    (Updated(t1, made), OutcomeOf(made))
  }

  /**
   * A link replaces whatever file or link had the name; it fails only when
   * the name is a directory or the directory is missing, and then a file
   * or link of that name is gone all the same.
   */
  lemma LinkInReplaces(t: Tree, env: Env, dirPath: string, source: string, name: string)
    ensures var dest := InDir(env, dirPath, name);
      var r := LinkIn(t, env, dirPath, source, name);
      var cleared := if dest in t && t[dest].Dir? then t else t - {dest};
      (r.1.Pass? <==> !(dest in t && t[dest].Dir?) && ParentIsDir(cleared, dest))
      && (r.1.Pass? ==> r.0 == cleared[dest := Link(ExpandPath(env, Some(source)))])
      && (r.1.Fail? ==> r.0 == cleared && r.1.error == OSError(dest))
  {
    var dest := InDir(env, dirPath, name);
    var target := ExpandPath(env, Some(source));
    var cleared := if dest in t && t[dest].Dir? then t else t - {dest};
    var t1 := Updated(t, RemoveIn(t, dest));
    if dest in t && t[dest].Dir? {
      assert t1 == t;
    } else if dest in t {
      assert t1 == t - {dest};
    } else {
      assert t - {dest} == t;
    }
    assert t1 == cleared;
    var made := SymlinkIn(t1, target, dest);
    assert made.Ok? <==> dest !in t1 && ParentIsDir(t1, dest);
  }

  /** `rm_from_runner_dir(name)`: a file or link goes, and errors are ignored. */
  function RemoveQuietly(t: Tree, env: Env, dirPath: string, name: string): (r: Tree)
    ensures var dest := InDir(env, dirPath, name);
      r == if dest in t && !t[dest].Dir? then t - {dest} else t
  {
    Updated(t, RemoveIn(t, InDir(env, dirPath, name)))
  }

  /** `s.add(x)` on a set kept in insertion order. */
  function AddTo(s: seq<string>, x: string): (r: seq<string>)
    ensures x in r && forall y :: y in s ==> y in r
    ensures forall y :: y in r ==> y == x || y in s
  {
    if x in s then s else s + [x]
  }

  /** No path is listed twice. */
  predicate NoDuplicates(s: seq<string>)
  {
    forall i, j :: 0 <= i < j < |s| ==> s[i] != s[j]
  }

  lemma AddToKeepsDistinct(s: seq<string>, x: string)
    requires NoDuplicates(s)
    ensures NoDuplicates(AddTo(s, x))
  {
  }

  /**
   * The copy-back loop of `__communicate`: each outside output file gets
   * the contents of its local copy, in order; the first failing copy raises,
   * and the copies made before it stay.
   */
  function CopyBackIn(t: Tree, env: Env, md5: string -> Digest, dirPath: string, files: seq<string>): (r: (Tree, Outcome))
    ensures r.1.Fail? ==> r.1.error.OSError?
    decreases |files|
  {
    if files == [] then (t, Pass)
    else
      var f := files[0];
      match CopyIn(t, InDir(env, dirPath, RunnerDirFileName(md5, f, "", "", None)), AbsPath(env, f))
      case Err(e) => (t, Fail(e))
      case Ok(t1) => CopyBackIn(t1, env, md5, dirPath, files[1..])
  }

  /** The copies of a longer list are those of its first part, then, if they all succeed, those of the rest. */
  lemma {:induction false} CopyBackAppend(t: Tree, env: Env, md5: string -> Digest, dirPath: string,
                                          a: seq<string>, b: seq<string>)
    ensures var first := CopyBackIn(t, env, md5, dirPath, a);
      CopyBackIn(t, env, md5, dirPath, a + b) ==
        if first.1.Fail? then first else CopyBackIn(first.0, env, md5, dirPath, b)
    decreases |a|
  {
    if a == [] {
      assert a + b == b;
    } else {
      var f := a[0];
      assert (a + b)[0] == f && (a + b)[1..] == a[1..] + b;
      var c := CopyIn(t, InDir(env, dirPath, RunnerDirFileName(md5, f, "", "", None)), AbsPath(env, f));
      if c.Ok? {
        CopyBackAppend(c.value, env, md5, dirPath, a[1..], b);
      }
    }
  }

  /** The copy-back of one file is that one copy. */
  lemma CopyBackOne(t: Tree, env: Env, md5: string -> Digest, dirPath: string, f: string)
    ensures var c := CopyIn(t, InDir(env, dirPath, RunnerDirFileName(md5, f, "", "", None)), AbsPath(env, f));
      CopyBackIn(t, env, md5, dirPath, [f]) == (Updated(t, c), OutcomeOf(c))
  {
    assert [f][1..] == [];
  }
}
