/**
 * `CycleFile`: a series of files whose names carry a zero-padded counter,
 * with a symbolic link that names the newest of them.
 */
module CycleFiles {
  import opened Common
  import opened Paths
  import opened FileSystem

  /** `'{:03d}'.format(n)`: at least three characters, zeros between the sign and the digits. */
  function Pad3(n: int): (r: string)
    ensures n >= 0 ==> AllDigits(r) && DecimalValue(r) == n && |r| >= 3
    ensures n >= 0 && n < 1000 ==> |r| == 3
    ensures n < 0 ==> |r| >= 3 && r[0] == '-' && AllDigits(r[1..]) && DecimalValue(r[1..]) == -n
  {
    if n >= 0 then
      ZeroPadKeepsValue(NatText(n), 3);
      NatTextShort(n);
      ZeroPad(NatText(n), 3)
    else
      ZeroPadKeepsValue(NatText(-n), 2);
      var d := ZeroPad(NatText(-n), 2);
      assert ("-" + d)[1..] == d;
      "-" + d
  }

  /** Leading zeros up to width `w`. */
  function ZeroPad(s: string, w: nat): (r: string)
    ensures |r| == if |s| >= w then |s| else w
  {
    if |s| >= w then s else seq(w - |s|, _ => '0') + s
  }

  /** Leading zeros change neither the digits-only shape nor the value. */
  lemma ZeroPadKeepsValue(s: string, w: nat)
    requires AllDigits(s)
    ensures AllDigits(ZeroPad(s, w)) && DecimalValue(ZeroPad(s, w)) == DecimalValue(s)
  {
    if |s| < w {
      LeadingZeros(w - |s|, s);
    }
  }

  lemma {:induction false} LeadingZeros(z: nat, s: string)
    ensures DecimalValue(seq(z, _ => '0') + s) == DecimalValue(s)
    decreases |s|
  {
    var zs := seq(z, _ => '0');
    if s == [] {
      assert zs + s == zs;
      ZerosValue(z);
    } else {
      assert (zs + s)[..|zs + s| - 1] == zs + s[..|s| - 1];
      LeadingZeros(z, s[..|s| - 1]);
    }
  }

  lemma {:induction false} ZerosValue(z: nat)
    ensures DecimalValue(seq(z, _ => '0')) == 0
  {
    if z > 0 {
      assert seq(z, _ => '0')[..z - 1] == seq(z - 1, _ => '0');
      ZerosValue(z - 1);
    }
  }

  /** The decimal text of a number below 1000 has at most three digits. */
  lemma NatTextShort(n: nat)
    ensures n < 1000 ==> |NatText(n)| <= 3
  {
    if 10 <= n < 1000 {
      if n >= 100 {
        assert |NatText(n / 10 / 10)| == 1;
        assert |NatText(n / 10)| == 2;
      } else {
        assert |NatText(n / 10)| == 1;
      }
    }
  }

  /** Digits-only strings of equal value and length are equal. */
  lemma {:induction false} DigitsDetermined(a: string, b: string)
    requires AllDigits(a) && AllDigits(b) && |a| == |b|
    requires DecimalValue(a) == DecimalValue(b)
    ensures a == b
    decreases |a|
  {
    if a != [] {
      var n := |a| - 1;
      assert AllDigits(a[..n]) && AllDigits(b[..n]);
      assert DigitValue(a[n]) == DecimalValue(a) % 10;
      assert DigitValue(b[n]) == DecimalValue(b) % 10;
      DigitsDetermined(a[..n], b[..n]);
      assert a == a[..n] + [a[n]] && b == b[..n] + [b[n]];
    }
  }

  /** Different counters give different counter texts. */
  lemma Pad3Injective(a: int, b: int)
    requires Pad3(a) == Pad3(b)
    ensures a == b
  {
    var r := Pad3(a);
    if a >= 0 {
      assert IsDigit(r[0]);
    }
  }

  /** The part of `__init__` that later calls read: where and how the files are named, and whether they are linked. */
  datatype Settings = Settings(
    path: string,
    basename: string,
    extension: string,
    createSymlinks: bool,
    symlinkSuffix: string)

  /** `filename_formatter.format(basename, counter, extension)`. */
  function FileName(s: Settings, counter: int): (r: string)
    ensures |r| == |s.basename| + |Pad3(counter)| + |s.extension|
  {
    s.basename + Pad3(counter) + s.extension
  }

  /** Each counter value names its own file. */
  lemma FileNamesDistinct(s: Settings, a: int, b: int)
    requires a != b
    ensures FileName(s, a) != FileName(s, b)
    ensures Join(s.path, FileName(s, a)) != Join(s.path, FileName(s, b))
  {
    if FileName(s, a) == FileName(s, b) {
      var n := |s.basename|;
      assert FileName(s, a)[n..n + |Pad3(a)|] == Pad3(a);
      assert FileName(s, b)[n..n + |Pad3(b)|] == Pad3(b);
      Pad3Injective(a, b);
    }
    FileNameAbs(s, a);
    FileNameAbs(s, b);
    JoinRightInjective(s.path, FileName(s, a), FileName(s, b));
  }

  /** A file name is absolute exactly when the base name is. */
  lemma FileNameAbs(s: Settings, c: int)
    ensures IsAbs(FileName(s, c)) <==> IsAbs(s.basename)
  {
    if s.basename == "" {
      assert FileName(s, c)[0] == Pad3(c)[0];
      if c >= 0 {
        assert IsDigit(Pad3(c)[0]);
      }
    }
  }

  /** `join` with one left part tells right parts apart unless exactly one is absolute. */
  lemma JoinRightInjective(p: string, x: string, y: string)
    requires IsAbs(x) <==> IsAbs(y)
    ensures Join(p, x) == Join(p, y) ==> x == y
  {
    var jx, jy := Join(p, x), Join(p, y);
    if !IsAbs(x) && jx == jy {
      var pre := if p == "" || p[|p| - 1] == '/' then p else p + "/";
      assert jx == pre + x && jy == pre + y;
      assert x == jx[|pre|..] && y == jy[|pre|..];
    }
  }

  /** `os.path.join(path, filename)` for the file of a counter. */
  function FilePath(s: Settings, counter: int): string
  {
    Join(s.path, FileName(s, counter))
  }

  /** `symlink_formatter.format(basename, symlink_suffix, extension)`. */
  function LinkName(s: Settings): string
  {
    s.basename + s.symlinkSuffix + s.extension
  }

  /** `os.path.join(path, symlname)`. */
  function LinkPath(s: Settings): string
  {
    Join(s.path, LinkName(s))
  }

  /**
   * The replacement of the link at `at` by one whose text is `text`: whatever
   * `os.path.exists` sees there is removed first, then the link is made.
   */
  function Relink(t: Tree, at: string, text: string): (r: Result<Tree>)
    ensures r.Ok? ==> r.value == (t - {at})[at := Link(text)]
    ensures at in t && !ExistsIn(t, at) ==> r.Err?
    ensures at in t && ExistsIn(t, at) && t[at].Dir? ==> r.Err?
    ensures at !in t ==> r == SymlinkIn(t, text, at)
    ensures ExistsIn(t, at) && !t[at].Dir? ==> r == SymlinkIn(t - {at}, text, at)
  {
    if ExistsIn(t, at) then
      var rm := RemoveIn(t, at);
      if rm.Err? then rm else SymlinkIn(rm.value, text, at)
    else SymlinkIn(t, text, at)
  }

  /**
   * The tree after the replacement, whether it succeeded or not: when
   * `os.remove` succeeds and `os.symlink` then fails, the old link stays
   * removed.
   */
  function RelinkTree(t: Tree, at: string, text: string): (r: Tree)
    ensures Relink(t, at, text).Ok? ==> r == Relink(t, at, text).value
    ensures Relink(t, at, text).Err? ==> r == t || (ExistsIn(t, at) && r == t - {at})
  {
    if ExistsIn(t, at) then
      var rm := RemoveIn(t, at);
      if rm.Err? then t else Updated(rm.value, SymlinkIn(rm.value, text, at))
    else Updated(t, SymlinkIn(t, text, at))
  }

  /** `_link` makes a link only when links are wanted and a file was opened. */
  predicate Linking(s: Settings, filepath: Option<string>)
  {
    s.createSymlinks && filepath.Some? && filepath.value != ""
  }

  /** The text of the link to the file at `filepath`: its absolute path. */
  function LinkText(env: Env, filepath: string): string
  {
    AbsPath(env, filepath)
  }

  /** `_link`, with the link text corrected to the file's absolute path. */
  function LinkStep(t: Tree, env: Env, s: Settings, filepath: Option<string>): (r: Result<Tree>)
    ensures !Linking(s, filepath) ==> r == Ok(t)
    ensures Linking(s, filepath) && r.Ok? ==>
      r.value == (t - {AbsPath(env, LinkPath(s))})[AbsPath(env, LinkPath(s)) := Link(LinkText(env, filepath.value))]
  {
    if Linking(s, filepath) then Relink(t, AbsPath(env, LinkPath(s)), LinkText(env, filepath.value)) else Ok(t)
  }

  /** `_link` as written: the link text is `filepath` itself. */
  function LinkStepAsWritten(t: Tree, env: Env, s: Settings, filepath: Option<string>): (r: Result<Tree>)
    ensures !Linking(s, filepath) ==> r == Ok(t)
    ensures Linking(s, filepath) && r.Ok? ==>
      r.value == (t - {AbsPath(env, LinkPath(s))})[AbsPath(env, LinkPath(s)) := Link(filepath.value)]
  {
    if Linking(s, filepath) then Relink(t, AbsPath(env, LinkPath(s)), filepath.value) else Ok(t)
  }

  /** The tree and outcome of one `_link`. */
  function LinkIn(t: Tree, env: Env, s: Settings, filepath: Option<string>): (Tree, Outcome)
  {
    var at := AbsPath(env, LinkPath(s));
    ((if Linking(s, filepath) then RelinkTree(t, at, LinkText(env, filepath.value)) else t),
     OutcomeOf(LinkStep(t, env, s, filepath)))
  }

  /** `_link` as written. */
  function LinkInAsWritten(t: Tree, env: Env, s: Settings, filepath: Option<string>): (Tree, Outcome)
  {
    var at := AbsPath(env, LinkPath(s));
    ((if Linking(s, filepath) then RelinkTree(t, at, filepath.value) else t),
     OutcomeOf(LinkStepAsWritten(t, env, s, filepath)))
  }

  /**
   * The filesystem part of `next_file`: relink to the file opened before,
   * then open the file of `counter` for writing.
   */
  function NextIn(t: Tree, env: Env, s: Settings, filepath: Option<string>, counter: int): (Tree, Outcome)
  {
    var l := LinkStep(t, env, s, filepath);
    if l.Err? then LinkIn(t, env, s, filepath)
    else
      var w := WriteIn(l.value, AbsPath(env, FilePath(s, counter)), "");
      (Updated(l.value, w), OutcomeOf(w))
  }

  /** `next_file` as written, with the link text of the source. */
  function NextInAsWritten(t: Tree, env: Env, s: Settings, filepath: Option<string>, counter: int): (Tree, Outcome)
  {
    var l := LinkStepAsWritten(t, env, s, filepath);
    if l.Err? then LinkInAsWritten(t, env, s, filepath)
    else
      var w := WriteIn(l.value, AbsPath(env, FilePath(s, counter)), "");
      (Updated(l.value, w), OutcomeOf(w))
  }

  /** With an absolute working directory, the link points at the file it was made for. */
  lemma LinkNamesFile(env: Env, at: string, filepath: string)
    requires IsAbs(env.cwd)
    ensures LinkTarget(at, LinkText(env, filepath)) == AbsPath(env, filepath)
  {
    var q := if IsAbs(filepath) then filepath else Join(env.cwd, filepath);
    assert IsAbs(q);
    NormPathIsAbs(q);
    NormPathIdempotent(q);
  }

  /**
   * A `next_file` that succeeds leaves the link naming the file opened
   * before it, and a file at the new path.
   */
  lemma NextFileLinksPrevious(t: Tree, env: Env, s: Settings, filepath: Option<string>, counter: int)
    requires IsAbs(env.cwd) && Linking(s, filepath)
    requires NextIn(t, env, s, filepath, counter).1 == Pass
    ensures var t' := NextIn(t, env, s, filepath, counter).0;
      var at := AbsPath(env, LinkPath(s));
      at in t' && t'[at].Link? && LinkTarget(at, t'[at].target) == AbsPath(env, filepath.value)
    ensures var t' := NextIn(t, env, s, filepath, counter).0;
      ReadIn(t', AbsPath(env, FilePath(s, counter))) == Ok("")
  {
    var at := AbsPath(env, LinkPath(s));
    var l := LinkStep(t, env, s, filepath).value;
    var p := AbsPath(env, FilePath(s, counter));
    var q := Resolve(l, p, MaxSymlinks).value;
    assert l[at].Link?;
    assert q != at;
    LinkNamesFile(env, at, filepath.value);
    WrittenReads(l, p);
  }

  /** What `open(p, 'w')` created reads back as the empty text. */
  lemma WrittenReads(t: Tree, p: string)
    requires WriteIn(t, p, "").Ok?
    ensures ReadIn(WriteIn(t, p, "").value, p) == Ok("")
  {
    var q := Resolve(t, p, MaxSymlinks).value;
    var t' := WriteIn(t, p, "").value;
    ResolveWritten(t, p, q, "", MaxSymlinks);
  }

  /** Writing at the end of a link chain leaves the chain leading there. */
  lemma {:induction false} ResolveWritten(t: Tree, p: string, q: string, data: string, fuel: nat)
    requires Resolve(t, p, fuel) == Some(q)
    ensures Resolve(t[q := File(data)], p, fuel) == Some(q)
    decreases fuel
  {
    if p in t && t[p].Link? {
      assert p != q;
      ResolveWritten(t, LinkTarget(p, t[p].target), q, data, fuel - 1);
    }
  }

  /** A successful `close` leaves the link naming the newest file. */
  lemma CloseLinksNewest(t: Tree, env: Env, s: Settings, filepath: Option<string>)
    requires IsAbs(env.cwd) && Linking(s, filepath)
    requires LinkIn(t, env, s, filepath).1 == Pass
    ensures var t' := LinkIn(t, env, s, filepath).0;
      var at := AbsPath(env, LinkPath(s));
      at in t' && t'[at].Link? && LinkTarget(at, t'[at].target) == AbsPath(env, filepath.value)
  {
    LinkNamesFile(env, AbsPath(env, LinkPath(s)), filepath.value);
  }

  /**
   * A failed `_link` leaves the tree as it was, or without the old link when
   * only the `os.symlink` after its removal failed.
   */
  lemma LinkFailureKeeps(t: Tree, env: Env, s: Settings, filepath: Option<string>)
    requires LinkIn(t, env, s, filepath).1.Fail?
    ensures var t' := LinkIn(t, env, s, filepath).0;
      var at := AbsPath(env, LinkPath(s));
      t' == t || (ExistsIn(t, at) && t' == t - {at})
  {
  }

  /** A single path component: not empty, not `.` or `..`, without `'/'`. */
  predicate IsName(n: string)
  {
    n != "" && n != "." && n != ".." && '/' !in n
  }

  /**
   * The setting of the two lemmas below: the working directory is `/w`,
   * `path` is a directory `d` in it given relative to it, there is nothing
   * else, and the names of the link and of the files of counters `k + 1`
   * to `k + 3` are single, different components.
   */
  predicate RelativeSetting(env: Env, s: Settings, w: string, k: int)
  {
    && env.cwd == "/" + w && IsName(w) && IsName(s.path) && s.createSymlinks && IsName(LinkName(s))
    && IsName(FileName(s, k + 1)) && IsName(FileName(s, k + 2)) && IsName(FileName(s, k + 3))
    && LinkName(s) != FileName(s, k + 1) && LinkName(s) != FileName(s, k + 2) && LinkName(s) != FileName(s, k + 3)
  }

  /** Nothing three levels deep is in the starting tree. */
  lemma NotInStart(w: string, d: string, x: string)
    requires IsName(w) && IsName(d) && Slashes(x) > 2
    ensures x !in StartTree(w, d)
  {
    NameSlashes(w);
    NameSlashes(d);
    assert Slashes("/") == 1;
  }

  /** The tree of that setting: the root, `/w` and `/w/d`. */
  function StartTree(w: string, d: string): Tree
  {
    map["/" := Dir, "/" + w := Dir, "/" + w + "/" + d := Dir]
  }

  /** A component below a component below the working directory `/w`. */
  lemma KeyOfRelative(env: Env, w: string, d: string, n: string)
    requires env.cwd == "/" + w && IsName(w) && IsName(d) && IsName(n)
    ensures Join(d, n) == d + "/" + n
    ensures AbsPath(env, Join(d, n)) == "/" + w + "/" + d + "/" + n
  {
    assert d[|d| - 1] != '/' && n[0] != '/' && w[|w| - 1] != '/';
    var x := d + "/" + n;
    assert x[0] == d[0] && d[0] != '/';
    var a := "/" + w;
    assert a[|a| - 1] == w[|w| - 1];
    JoinChild(d, n);
    JoinChild(a, x);
    assert a + "/" + x == "/" + w + "/" + d + "/" + n;
    ThreeNormal(w, d, n);
  }

  /** `join` of a relative part onto a directory not ending in `'/'` puts one `'/'` between them. */
  lemma JoinChild(a: string, x: string)
    requires a != "" && a[|a| - 1] != '/' && x != "" && x[0] != '/'
    ensures Join(a, x) == a + "/" + x
  {
  }

  lemma ThreeNormal(a: string, b: string, c: string)
    requires IsName(a) && IsName(b) && IsName(c)
    ensures NormPath("/" + a + "/" + b + "/" + c) == "/" + a + "/" + b + "/" + c
  {
    var l := [a, b, c];
    assert NormalComps(l);
    NormPathOfNormal(l);
    ThreeJoined(a, b, c);
  }

  lemma ThreeJoined(a: string, b: string, c: string)
    ensures "/" + JoinSlash([a, b, c]) == "/" + a + "/" + b + "/" + c
  {
    var l := [a, b, c];
    assert l[1..] == [b, c] && l[1..][1..] == [c];
    assert JoinSlash([c]) == c;
    assert JoinSlash([b, c]) == b + "/" + c;
    assert JoinSlash(l) == a + "/" + (b + "/" + c);
    assert "/" + (a + "/" + (b + "/" + c)) == "/" + a + "/" + b + "/" + c;
  }

  lemma FourNormal(a: string, b: string, c: string, e: string)
    requires IsName(a) && IsName(b) && IsName(c) && IsName(e)
    ensures NormPath("/" + a + "/" + b + "/" + c + "/" + e) == "/" + a + "/" + b + "/" + c + "/" + e
  {
    var l := [a, b, c, e];
    assert NormalComps(l);
    NormPathOfNormal(l);
    FourJoined(a, b, c, e);
  }

  lemma FourJoined(a: string, b: string, c: string, e: string)
    ensures "/" + JoinSlash([a, b, c, e]) == "/" + a + "/" + b + "/" + c + "/" + e
  {
    var l := [a, b, c, e];
    assert l[1..] == [b, c, e] && l[1..][1..] == [c, e] && l[1..][1..][1..] == [e];
    assert JoinSlash([e]) == e;
    assert JoinSlash([c, e]) == c + "/" + e;
    assert JoinSlash([b, c, e]) == b + "/" + (c + "/" + e);
    assert JoinSlash(l) == a + "/" + (b + "/" + (c + "/" + e));
    assert "/" + (a + "/" + (b + "/" + (c + "/" + e))) == "/" + a + "/" + b + "/" + c + "/" + e;
  }

  /** The number of `'/'` in a path, which tells paths of different depth apart. */
  function Slashes(p: string): nat
  {
    multiset(p)['/']
  }

  lemma NameSlashes(n: string)
    requires '/' !in n
    ensures Slashes(n) == 0
  {
    assert '/' !in multiset(n);
  }

  /** A child `n` of the directory key `dk`: its directory and its depth. */
  lemma ChildKey(dk: string, n: string)
    requires dk != "" && dk[|dk| - 1] != '/' && IsName(n)
    ensures Dirname(dk + "/" + n) == dk
    ensures Slashes(dk + "/" + n) == Slashes(dk) + 1
  {
    DirnameOfChild(dk, n);
    NameSlashes(n);
  }

  /** Children of one directory with different names have different keys. */
  lemma ChildrenDistinct(dk: string, x: string, y: string)
    ensures dk + "/" + x == dk + "/" + y ==> x == y
  {
    var a, b := dk + "/" + x, dk + "/" + y;
    assert a[|dk| + 1..] == x && b[|dk| + 1..] == y;
  }

  /** `open(p, 'w')` of a new file in an existing directory. */
  lemma CreateChild(t: Tree, dk: string, n: string)
    requires dk in t && t[dk].Dir? && dk != "" && dk[|dk| - 1] != '/' && IsName(n)
    requires dk + "/" + n !in t
    ensures WriteIn(t, dk + "/" + n, "") == Ok(t[dk + "/" + n := File("")])
  {
    DirnameOfChild(dk, n);
  }

  /** `os.symlink(text, p)` of a new link in an existing directory. */
  lemma LinkChild(t: Tree, dk: string, n: string, text: string)
    requires dk in t && t[dk].Dir? && dk != "" && dk[|dk| - 1] != '/' && IsName(n)
    requires dk + "/" + n !in t
    ensures SymlinkIn(t, text, dk + "/" + n) == Ok(t[dk + "/" + n := Link(text)])
  {
    DirnameOfChild(dk, n);
  }

  /** A link whose target is absent does not exist for `os.path.exists`. */
  lemma DanglingLink(t: Tree, l: string, text: string)
    requires l in t && t[l] == Link(text) && LinkTarget(l, text) !in t
    ensures !ExistsIn(t, l)
  {
    assert Resolve(t, LinkTarget(l, text), MaxSymlinks - 1) == Some(LinkTarget(l, text));
  }

  /** A link to a file exists. */
  lemma LiveLink(t: Tree, l: string, text: string)
    requires l in t && t[l] == Link(text) && LinkTarget(l, text) in t && t[LinkTarget(l, text)].File?
    ensures ExistsIn(t, l)
  {
    assert Resolve(t, LinkTarget(l, text), MaxSymlinks - 1) == Some(LinkTarget(l, text));
  }

  /** The keys of the setting: its directory has depth two, its files and link three, under `/w`. */
  lemma SettingKeys(env: Env, s: Settings, w: string, k: int)
    requires RelativeSetting(env, s, w, k)
    ensures var dk := "/" + w + "/" + s.path;
      && dk[|dk| - 1] != '/' && Slashes(dk) == 2 && Slashes("/" + w) == 1 && Slashes("/") == 1
      && AbsPath(env, LinkPath(s)) == dk + "/" + LinkName(s)
      && AbsPath(env, FilePath(s, k + 1)) == dk + "/" + FileName(s, k + 1)
      && AbsPath(env, FilePath(s, k + 2)) == dk + "/" + FileName(s, k + 2)
      && AbsPath(env, FilePath(s, k + 3)) == dk + "/" + FileName(s, k + 3)
  {
    var d := s.path;
    var dk := "/" + w + "/" + d;
    assert dk[|dk| - 1] == d[|d| - 1];
    KeyOfRelative(env, w, d, LinkName(s));
    KeyOfRelative(env, w, d, FileName(s, k + 1));
    KeyOfRelative(env, w, d, FileName(s, k + 2));
    KeyOfRelative(env, w, d, FileName(s, k + 3));
    NameSlashes(w);
    NameSlashes(d);
  }

  /** The as-written text of the first link, read from the link's directory. */
  lemma DanglingTarget(env: Env, s: Settings, w: string, k: int)
    requires RelativeSetting(env, s, w, k)
    ensures var dk := "/" + w + "/" + s.path;
      && LinkTarget(dk + "/" + LinkName(s), FilePath(s, k + 1)) == dk + "/" + s.path + "/" + FileName(s, k + 1)
      && Slashes(dk + "/" + s.path + "/" + FileName(s, k + 1)) == 4
  {
    var d := s.path;
    var dk := "/" + w + "/" + d;
    assert dk[|dk| - 1] == d[|d| - 1];
    DirnameOfChild(dk, LinkName(s));
    KeyOfRelative(env, w, d, FileName(s, k + 1));
    var x := d + "/" + FileName(s, k + 1);
    assert x[0] == d[0];
    JoinChild(dk, x);
    ConcatAssoc(dk + "/", d + "/", FileName(s, k + 1));
    ConcatAssoc(dk + "/", d, "/");
    FourNormal(w, d, d, FileName(s, k + 1));
    NameSlashes(w);
    NameSlashes(d);
    NameSlashes(FileName(s, k + 1));
  }

  /** The first `next_file`, with nothing opened before: only the opening happens. */
  lemma FirstStep(t: Tree, env: Env, s: Settings, c: int, f: string, tw: Tree)
    requires AbsPath(env, FilePath(s, c)) == f && WriteIn(t, f, "") == Ok(tw)
    ensures NextIn(t, env, s, None, c) == (tw, Pass)
    ensures NextInAsWritten(t, env, s, None, c) == (tw, Pass)
  {
  }

  /** A later `next_file` succeeds when both the relinking at `l` with `text` and the opening do. */
  lemma LinkedStep(t: Tree, env: Env, s: Settings, fp: string, c: int, l: string, text: string,
                   tl: Tree, f: string, tw: Tree)
    requires Linking(s, Some(fp)) && AbsPath(env, LinkPath(s)) == l && Relink(t, l, text) == Ok(tl)
    requires AbsPath(env, FilePath(s, c)) == f && WriteIn(tl, f, "") == Ok(tw)
    ensures text == LinkText(env, fp) ==> NextIn(t, env, s, Some(fp), c) == (tw, Pass)
    ensures text == fp ==> NextInAsWritten(t, env, s, Some(fp), c) == (tw, Pass)
  {
  }

  /** A later `next_file` as written fails when its relinking does. */
  lemma FailedStep(t: Tree, env: Env, s: Settings, fp: string, c: int, l: string)
    requires Linking(s, Some(fp)) && AbsPath(env, LinkPath(s)) == l && Relink(t, l, fp).Err?
    ensures NextInAsWritten(t, env, s, Some(fp), c).1.Fail?
  {
  }

  /** `next_file` fails, with the tree the failed relinking left, when the relinking fails. */
  lemma NextFails(t: Tree, env: Env, s: Settings, filepath: Option<string>, c: int)
    ensures LinkStep(t, env, s, filepath).Err? ==> NextIn(t, env, s, filepath, c) == LinkIn(t, env, s, filepath)
    ensures LinkStepAsWritten(t, env, s, filepath).Err? ==> NextInAsWritten(t, env, s, filepath, c).1.Fail?
  {
  }

  /**
   * The tree-level course of three `next_file` calls in one directory `dk`
   * whose link text `text1` names, from the link, something that is not there.
   */
  lemma DanglingCourse(t0: Tree, dk: string, n1: string, n2: string, ln: string, text1: string, text2: string)
    requires dk in t0 && t0[dk].Dir? && dk != "" && dk[|dk| - 1] != '/'
    requires IsName(n1) && IsName(n2) && IsName(ln)
    requires var f1, f2, l := dk + "/" + n1, dk + "/" + n2, dk + "/" + ln;
      && f1 !in t0 && f2 !in t0 && l !in t0 && f1 != f2 && l != f1 && l != f2
      && LinkTarget(l, text1) !in t0 && LinkTarget(l, text1) != f1 && LinkTarget(l, text1) != f2
      && LinkTarget(l, text1) != l
    ensures var f1, f2, l := dk + "/" + n1, dk + "/" + n2, dk + "/" + ln;
      var t1 := t0[f1 := File("")];
      var t2 := t1[l := Link(text1)][f2 := File("")];
      && WriteIn(t0, f1, "") == Ok(t1)
      && Relink(t1, l, text1) == Ok(t1[l := Link(text1)])
      && WriteIn(t1[l := Link(text1)], f2, "") == Ok(t2)
      && l in t2 && t2[l] == Link(text1) && !ExistsIn(t2, l) && Relink(t2, l, text2).Err?
  {
    var f1, f2, l := dk + "/" + n1, dk + "/" + n2, dk + "/" + ln;
    var t1 := t0[f1 := File("")];
    CreateChild(t0, dk, n1);
    var t1l := t1[l := Link(text1)];
    LinkChild(t1, dk, ln, text1);
    var t2 := t1l[f2 := File("")];
    CreateChild(t1l, dk, n2);
    DanglingLink(t2, l, text1);
  }

  /**
   * As written, a relative `path` makes the link dangle: when `path` names
   * the directory `d` relative to the working directory, the link `d/l`
   * gets the text `d/f1`, which from the link's directory names `d/d/f1`.
   * The second `_link` then sees nothing at the link and does not remove
   * it, so `os.symlink` fails: the third `next_file` raises.
   */
  lemma RelativeLinkDangles(env: Env, s: Settings, w: string, k: int)
    requires RelativeSetting(env, s, w, k)
    ensures var n1 := NextInAsWritten(StartTree(w, s.path), env, s, None, k + 1);
      var n2 := NextInAsWritten(n1.0, env, s, Some(FilePath(s, k + 1)), k + 2);
      var n3 := NextInAsWritten(n2.0, env, s, Some(FilePath(s, k + 2)), k + 3);
      var at := AbsPath(env, LinkPath(s));
      && n1.1 == Pass && n2.1 == Pass && n3.1.Fail?
      && at in n2.0 && n2.0[at] == Link(FilePath(s, k + 1)) && !ExistsIn(n2.0, at)
  {
    CourseKeys(env, s, w, k);
    DanglingTarget(env, s, w, k);
    var dk := "/" + w + "/" + s.path;
    var target := dk + "/" + s.path + "/" + FileName(s, k + 1);
    NotInStart(w, s.path, target);
    assert target != dk + "/" + FileName(s, k + 1) && target != dk + "/" + FileName(s, k + 2);
    assert target != dk + "/" + LinkName(s);
    DanglingRun(StartTree(w, s.path), env, s, k, dk, FileName(s, k + 1), FileName(s, k + 2), LinkName(s));
  }

  /** The keys of the setting, which the two courses below need. */
  lemma CourseKeys(env: Env, s: Settings, w: string, k: int)
    requires RelativeSetting(env, s, w, k)
    ensures var dk, t0 := "/" + w + "/" + s.path, StartTree(w, s.path);
      var f1, f2, f3 := dk + "/" + FileName(s, k + 1), dk + "/" + FileName(s, k + 2), dk + "/" + FileName(s, k + 3);
      var l := dk + "/" + LinkName(s);
      && dk in t0 && t0[dk].Dir? && dk != "" && dk[|dk| - 1] != '/'
      && f1 !in t0 && f2 !in t0 && f3 !in t0 && l !in t0
      && f1 != f2 && f1 != f3 && f2 != f3 && l != f1 && l != f2 && l != f3
      && Slashes(f1) == 3 && Slashes(f2) == 3 && Slashes(l) == 3
      && AbsPath(env, LinkPath(s)) == l
      && AbsPath(env, FilePath(s, k + 1)) == f1 && AbsPath(env, FilePath(s, k + 2)) == f2
      && AbsPath(env, FilePath(s, k + 3)) == f3
      && Linking(s, Some(FilePath(s, k + 1))) && Linking(s, Some(FilePath(s, k + 2)))
  {
    SettingKeys(env, s, w, k);
    var dk := "/" + w + "/" + s.path;
    var n1, n2, n3, ln := FileName(s, k + 1), FileName(s, k + 2), FileName(s, k + 3), LinkName(s);
    var f1, f2, f3, l := dk + "/" + n1, dk + "/" + n2, dk + "/" + n3, dk + "/" + ln;
    ChildKey(dk, n1);
    ChildKey(dk, n2);
    ChildKey(dk, n3);
    ChildKey(dk, ln);
    FileNamesDistinct(s, k + 1, k + 2);
    FileNamesDistinct(s, k + 1, k + 3);
    FileNamesDistinct(s, k + 2, k + 3);
    ChildrenDistinct(dk, n1, n2);
    ChildrenDistinct(dk, n1, n3);
    ChildrenDistinct(dk, n2, n3);
    ChildrenDistinct(dk, ln, n1);
    ChildrenDistinct(dk, ln, n2);
    ChildrenDistinct(dk, ln, n3);
    NotInStart(w, s.path, f1);
    NotInStart(w, s.path, f2);
    NotInStart(w, s.path, f3);
    NotInStart(w, s.path, l);
  }

  /** The as-written course over the keys of directory `dk`, names `n1`, `n2` and link name `ln`. */
  lemma DanglingRun(t0: Tree, env: Env, s: Settings, k: int, dk: string, n1: string, n2: string, ln: string)
    requires dk in t0 && t0[dk].Dir? && dk != "" && dk[|dk| - 1] != '/'
    requires IsName(n1) && IsName(n2) && IsName(ln)
    requires var f1, f2, l := dk + "/" + n1, dk + "/" + n2, dk + "/" + ln;
      var text1 := FilePath(s, k + 1);
      && f1 !in t0 && f2 !in t0 && l !in t0 && f1 != f2 && l != f1 && l != f2
      && AbsPath(env, LinkPath(s)) == l && AbsPath(env, FilePath(s, k + 1)) == f1
      && AbsPath(env, FilePath(s, k + 2)) == f2
      && Linking(s, Some(FilePath(s, k + 1))) && Linking(s, Some(FilePath(s, k + 2)))
      && LinkTarget(l, text1) !in t0 && LinkTarget(l, text1) != f1 && LinkTarget(l, text1) != f2
      && LinkTarget(l, text1) != l
    ensures var r1 := NextInAsWritten(t0, env, s, None, k + 1);
      var r2 := NextInAsWritten(r1.0, env, s, Some(FilePath(s, k + 1)), k + 2);
      var r3 := NextInAsWritten(r2.0, env, s, Some(FilePath(s, k + 2)), k + 3);
      var l := dk + "/" + ln;
      && r1.1 == Pass && r2.1 == Pass && r3.1.Fail?
      && l in r2.0 && r2.0[l] == Link(FilePath(s, k + 1)) && !ExistsIn(r2.0, l)
  {
    var f1, f2, l := dk + "/" + n1, dk + "/" + n2, dk + "/" + ln;
    var text1, text2 := FilePath(s, k + 1), FilePath(s, k + 2);
    DanglingCourse(t0, dk, n1, n2, ln, text1, text2);
    var t1 := t0[f1 := File("")];
    var t1l := t1[l := Link(text1)];
    var t2 := t1l[f2 := File("")];
    FirstStep(t0, env, s, k + 1, f1, t1);
    LinkedStep(t1, env, s, text1, k + 2, l, text1, t1l, f2, t2);
    FailedStep(t2, env, s, text2, k + 3, l);
  }

  /**
   * The first two calls of the course with the link text corrected: the link
   * names the first file, which is there.
   */
  lemma LiveStart(t0: Tree, dk: string, n1: string, n2: string, n3: string, ln: string)
    requires dk in t0 && t0[dk].Dir? && dk != "" && dk[|dk| - 1] != '/'
    requires IsName(n1) && IsName(n2) && IsName(ln)
    requires var f1, f2, f3, l := dk + "/" + n1, dk + "/" + n2, dk + "/" + n3, dk + "/" + ln;
      && f1 !in t0 && f2 !in t0 && f3 !in t0 && l !in t0
      && f1 != f2 && f1 != f3 && f2 != f3 && l != f1 && l != f2 && l != f3
      && LinkTarget(l, f1) == f1
    ensures var f1, f2, f3, l := dk + "/" + n1, dk + "/" + n2, dk + "/" + n3, dk + "/" + ln;
      var t1 := t0[f1 := File("")];
      var t2 := t1[l := Link(f1)][f2 := File("")];
      && WriteIn(t0, f1, "") == Ok(t1)
      && Relink(t1, l, f1) == Ok(t1[l := Link(f1)])
      && WriteIn(t1[l := Link(f1)], f2, "") == Ok(t2)
      && dk in t2 && t2[dk].Dir? && l in t2 && t2[l].Link? && ExistsIn(t2, l)
      && f2 in t2 && t2[f2] == File("") && f3 !in t2
  {
    var f1, f2, f3, l := dk + "/" + n1, dk + "/" + n2, dk + "/" + n3, dk + "/" + ln;
    assert |f1| > |dk| && |f2| > |dk| && |l| > |dk|;
    var t1 := t0[f1 := File("")];
    CreateChild(t0, dk, n1);
    assert dk in t1 && t1[dk].Dir? && l !in t1 && f2 !in t1 && f3 !in t1;
    var t1l := t1[l := Link(f1)];
    LinkChild(t1, dk, ln, f1);
    assert Relink(t1, l, f1) == Ok(t1l);
    assert dk in t1l && t1l[dk].Dir? && f2 !in t1l && f3 !in t1l;
    var t2 := t1l[f2 := File("")];
    CreateChild(t1l, dk, n2);
    assert f3 !in t2;
    assert l in t2 && t2[l] == Link(f1) && f1 in t2 && t2[f1].File?;
    LiveLink(t2, l, f1);
  }

  /** The third call of that course: the link that is there is replaced, then the third file made. */
  lemma LiveRelink(t2: Tree, dk: string, n2: string, n3: string, ln: string)
    requires dk in t2 && t2[dk].Dir? && dk != "" && dk[|dk| - 1] != '/'
    requires IsName(n2) && IsName(n3) && IsName(ln)
    requires var f2, f3, l := dk + "/" + n2, dk + "/" + n3, dk + "/" + ln;
      && l in t2 && t2[l].Link? && ExistsIn(t2, l) && f2 in t2 && t2[f2] == File("")
      && f3 !in t2 && f2 != f3 && l != f2 && l != f3 && LinkTarget(l, f2) == f2
    ensures var f2, f3, l := dk + "/" + n2, dk + "/" + n3, dk + "/" + ln;
      var t2l := (t2 - {l})[l := Link(f2)];
      var t3 := t2l[f3 := File("")];
      && Relink(t2, l, f2) == Ok(t2l)
      && WriteIn(t2l, f3, "") == Ok(t3)
      && l in t3 && t3[l] == Link(f2) && ExistsIn(t3, l)
  {
    var f2, f3, l := dk + "/" + n2, dk + "/" + n3, dk + "/" + ln;
    assert |l| > |dk|;
    LinkChild(t2 - {l}, dk, ln, f2);
    var t2l := (t2 - {l})[l := Link(f2)];
    var t3 := t2l[f3 := File("")];
    CreateChild(t2l, dk, n3);
    LiveLink(t3, l, f2);
  }

  /**
   * With the link text corrected to the absolute path, the same three calls
   * succeed and leave the link naming the second file.
   */
  lemma RelativeLinkCorrected(env: Env, s: Settings, w: string, k: int)
    requires RelativeSetting(env, s, w, k)
    ensures var n1 := NextIn(StartTree(w, s.path), env, s, None, k + 1);
      var n2 := NextIn(n1.0, env, s, Some(FilePath(s, k + 1)), k + 2);
      var n3 := NextIn(n2.0, env, s, Some(FilePath(s, k + 2)), k + 3);
      var at := AbsPath(env, LinkPath(s));
      && n1.1 == Pass && n2.1 == Pass && n3.1 == Pass
      && at in n3.0 && n3.0[at] == Link(AbsPath(env, FilePath(s, k + 2))) && ExistsIn(n3.0, at)
  {
    CourseKeys(env, s, w, k);
    var dk := "/" + w + "/" + s.path;
    var l := dk + "/" + LinkName(s);
    assert IsAbs(env.cwd);
    LinkNamesFile(env, l, FilePath(s, k + 1));
    LinkNamesFile(env, l, FilePath(s, k + 2));
    LiveRun(StartTree(w, s.path), env, s, k, dk, FileName(s, k + 1), FileName(s, k + 2), FileName(s, k + 3), LinkName(s));
  }

  /** The corrected course over the keys of directory `dk`, names `n1` to `n3` and link name `ln`. */
  lemma LiveRun(t0: Tree, env: Env, s: Settings, k: int, dk: string, n1: string, n2: string, n3: string, ln: string)
    requires dk in t0 && t0[dk].Dir? && dk != "" && dk[|dk| - 1] != '/'
    requires IsName(n1) && IsName(n2) && IsName(n3) && IsName(ln)
    requires var f1, f2, f3, l := dk + "/" + n1, dk + "/" + n2, dk + "/" + n3, dk + "/" + ln;
      && f1 !in t0 && f2 !in t0 && f3 !in t0 && l !in t0
      && f1 != f2 && f1 != f3 && f2 != f3 && l != f1 && l != f2 && l != f3
      && AbsPath(env, LinkPath(s)) == l && AbsPath(env, FilePath(s, k + 1)) == f1
      && AbsPath(env, FilePath(s, k + 2)) == f2 && AbsPath(env, FilePath(s, k + 3)) == f3
      && Linking(s, Some(FilePath(s, k + 1))) && Linking(s, Some(FilePath(s, k + 2)))
      && LinkTarget(l, LinkText(env, FilePath(s, k + 1))) == f1
      && LinkTarget(l, LinkText(env, FilePath(s, k + 2))) == f2
    ensures var r1 := NextIn(t0, env, s, None, k + 1);
      var r2 := NextIn(r1.0, env, s, Some(FilePath(s, k + 1)), k + 2);
      var r3 := NextIn(r2.0, env, s, Some(FilePath(s, k + 2)), k + 3);
      var l := dk + "/" + ln;
      && r1.1 == Pass && r2.1 == Pass && r3.1 == Pass
      && l in r3.0 && r3.0[l] == Link(dk + "/" + n2) && ExistsIn(r3.0, l)
  {
    var f1, f2, f3, l := dk + "/" + n1, dk + "/" + n2, dk + "/" + n3, dk + "/" + ln;
    var text1, text2 := FilePath(s, k + 1), FilePath(s, k + 2);
    assert LinkText(env, text1) == f1 && LinkText(env, text2) == f2;
    LiveStart(t0, dk, n1, n2, n3, ln);
    var t1 := t0[f1 := File("")];
    var t1l := t1[l := Link(f1)];
    var t2 := t1l[f2 := File("")];
    LiveRelink(t2, dk, n2, n3, ln);
    var t2l := (t2 - {l})[l := Link(f2)];
    var t3 := t2l[f3 := File("")];
    FirstStep(t0, env, s, k + 1, f1, t1);
    LinkedStep(t1, env, s, text1, k + 2, l, f1, t1l, f2, t2);
    LinkedStep(t2, env, s, text2, k + 3, l, f2, t2l, f3, t3);
  }

  /** A handle `open` returned; `close()` clears `open` but the object stays. */
  datatype Handle = Handle(path: string, open: bool)

  /**
   * A series of files named by a counter, with a link to the newest one.
   * `Link` and so `NextFile` and `Close` make the link with the corrected
   * text, the file's absolute path (`LinkStep`); the program as written
   * links `filepath` as given (`LinkStepAsWritten`, `NextInAsWritten`),
   * which dangles for a relative `path` (`RelativeLinkDangles`).
   */
  class CycleFile {
    const fs: FileSystem
    const path: string
    const basename: string
    const extension: string
    const createSymlinks: bool
    const symlinkSuffix: string
    const autoClose: bool
    var counter: int
    var file: Option<Handle>
    var filepath: Option<string>

    function Config(): Settings
    {
      Settings(path, basename, extension, createSymlinks, symlinkSuffix)
    }

    /** `CycleFile(path, basename, extension, create_symlinks, symlink_suffix, auto_close)`: nothing opened yet. */
    constructor(fs: FileSystem, path: string, basename: string, extension: string,
                createSymlinks: bool, symlinkSuffix: string, autoClose: bool)
      ensures this.fs == fs && Config() == Settings(path, basename, extension, createSymlinks, symlinkSuffix)
      ensures this.autoClose == autoClose
      ensures counter == 0 && file == None && filepath == None
    {
      this.fs := fs;
      this.path := path;
      this.basename := basename;
      this.extension := extension;
      this.createSymlinks := createSymlinks;
      this.symlinkSuffix := symlinkSuffix;
      this.autoClose := autoClose;
      counter := 0;
      file := None;
      filepath := None;
    }

    /** `_link`: points the link at `filepath`, when links are made and a file was opened. */
    method Link() returns (o: Outcome)
      modifies fs
      ensures (fs.tree, o) == LinkIn(old(fs.tree), fs.env, Config(), filepath)
    {
      if createSymlinks && filepath.Some? && filepath.value != "" {
        var at := LinkPath(Config());
        var text := LinkText(fs.env, filepath.value);
        ghost var t := fs.tree;
        assert LinkStep(t, fs.env, Config(), filepath) == Relink(t, fs.Key(at), text);
        if fs.Exists(at) {
          o := fs.Remove(at);
          if o.Fail? {
            return;
          }
        }
        o := fs.Symlink(text, at);
      } else {
        o := Pass;
      }
    }

    /**
     * `next_file(counter)`: the counter moves on by one or is set; with
     * `auto_close` the previous file is closed; the link is pointed at the
     * file opened before, and only then the new file is opened and becomes
     * `filepath`. A failing step raises and leaves `filepath` as it was.
     */
    method NextFile(c: Option<int>) returns (o: Outcome)
      modifies this, fs
      ensures counter == if c.Some? then c.value else old(counter) + 1
      ensures (fs.tree, o) == NextIn(old(fs.tree), fs.env, Config(), old(filepath), counter)
      ensures o.Pass? ==>
        filepath == Some(FilePath(Config(), counter)) && file == Some(Handle(FilePath(Config(), counter), true))
      ensures o.Fail? ==>
        filepath == old(filepath) && file == if autoClose then None else old(file)
    {
      counter := if c.Some? then c.value else counter + 1;
      if autoClose && file.Some? {
        file := None;
      }
      o := Link();
      if o.Fail? {
        return;
      }
      var p := FilePath(Config(), counter);
      o := fs.Create(p);
      if o.Fail? {
        return;
      }
      file := Some(Handle(p, true));
      filepath := Some(p);
    }

    /** `close()`: closes the open handle, then points the link at the newest file. */
    method Close() returns (o: Outcome)
      modifies this`file, fs
      ensures file == if old(file).Some? then Some(old(file).value.(open := false)) else None
      ensures (fs.tree, o) == LinkIn(old(fs.tree), fs.env, Config(), filepath)
    {
      if file.Some? {
        file := Some(file.value.(open := false));
      }
      o := Link();
    }
  }
}
