/**
 * The subset of Python's `posixpath` that the runner, the temporary directory
 * and the counter-named files use: `join`, `basename`, `dirname`, `normpath`,
 * `abspath` and `expanduser`. The process environment they consult (current
 * directory, `HOME`) is an explicit value.
 */
module Paths {
  import opened Common

  /**
   * What `abspath`, `expanduser` and `tempfile.gettempdir` read from the
   * process environment, with `homes` the home directories the password
   * database gives by user name.
   */
  datatype Env = Env(cwd: string, home: string, tempdir: string, homes: map<string, string>)

  predicate IsAbs(p: string)
  {
    |p| > 0 && p[0] == '/'
  }

  /** `s.split('/')`. */
  function SplitSlash(s: string): (parts: seq<string>)
    ensures |parts| > 0
    ensures forall k :: 0 <= k < |parts| ==> '/' !in parts[k]
    decreases |s|
  {
    var n := Run(s, 0, NotSlash);
    RunAll(s, 0, NotSlash);
    if n == |s| then [s] else [s[..n]] + SplitSlash(s[n + 1..])
  }

  /** `'/'.join(parts)`. */
  function JoinSlash(parts: seq<string>): string
  {
    if parts == [] then ""
    else if |parts| == 1 then parts[0]
    else parts[0] + "/" + JoinSlash(parts[1..])
  }

  /** Splitting on `'/'` and joining back gives the original path. */
  lemma {:induction false} SplitJoinSlash(s: string)
    ensures JoinSlash(SplitSlash(s)) == s
    decreases |s|
  {
    var n := Run(s, 0, NotSlash);
    RunAll(s, 0, NotSlash);
    if n < |s| {
      SplitJoinSlash(s[n + 1..]);
      var rest := SplitSlash(s[n + 1..]);
      assert ([s[..n]] + rest)[1..] == rest;
      assert s == s[..n] + "/" + s[n + 1..];
    }
  }

  /** `posixpath.join(a, b)`. */
  function Join(a: string, b: string): (r: string)
    ensures IsAbs(b) ==> r == b
    ensures !IsAbs(b) ==> a <= r && |b| <= |r| && r[|r| - |b|..] == b
  {
    if IsAbs(b) then b
    else if a == "" || a[|a| - 1] == '/' then a + b
    else a + "/" + b
  }

  /** Index just after the last `'/'` of `p`, or 0. */
  function TailStart(p: string): (i: nat)
    ensures i <= |p|
    ensures i > 0 ==> p[i - 1] == '/'
  {
    if p == "" then 0
    else if p[|p| - 1] == '/' then |p|
    else TailStart(p[..|p| - 1])
  }

  /** No `'/'` follows the last one. */
  lemma {:induction false} TailHasNoSlash(p: string)
    ensures forall k :: TailStart(p) <= k < |p| ==> p[k] != '/'
    decreases |p|
  {
    if p != "" && p[|p| - 1] != '/' {
      var q := p[..|p| - 1];
      TailHasNoSlash(q);
      assert forall k :: 0 <= k < |q| ==> q[k] == p[k];
    }
  }

  /** `posixpath.basename(p)`. */
  function Basename(p: string): string
  {
    p[TailStart(p)..]
  }

  /** The test `_prepare_io_file` and `absolute_path` use for "a bare file name". */
  lemma BasenameIsWholePath(p: string)
    ensures Basename(p) == p <==> '/' !in p
    ensures '/' !in Basename(p)
  {
    var i := TailStart(p);
    TailHasNoSlash(p);
    if '/' in p {
      var k :| 0 <= k < |p| && p[k] == '/';
      assert k < i;
      assert |Basename(p)| < |p|;
    } else {
      assert i == 0;
    }
  }

  function StripTrailingSlashes(s: string): (r: string)
    ensures r <= s
  {
    if s != "" && s[|s| - 1] == '/' then StripTrailingSlashes(s[..|s| - 1]) else s
  }

  predicate AllSlashes(s: string)
  {
    forall k :: 0 <= k < |s| ==> s[k] == '/'
  }

  /** `posixpath.dirname(p)`. */
  function Dirname(p: string): string
  {
    var head := p[..TailStart(p)];
    if head != "" && !AllSlashes(head) then StripTrailingSlashes(head) else head
  }

  /** The component walk of `posixpath.normpath`: drops `''` and `'.'`, resolves `'..'`. */
  function NormComps(comps: seq<string>, acc: seq<string>, rooted: bool): seq<string>
    decreases |comps|
  {
    if comps == [] then acc
    else
      var c := comps[0];
      if c == "" || c == "." then NormComps(comps[1..], acc, rooted)
      else if c != ".." || (!rooted && acc == []) || (acc != [] && acc[|acc| - 1] == "..") then
        NormComps(comps[1..], acc + [c], rooted)
      else if acc != [] then NormComps(comps[1..], acc[..|acc| - 1], rooted)
      else NormComps(comps[1..], acc, rooted)
  }

  /** `posixpath.normpath(p)`. */
  function NormPath(p: string): (r: string)
    ensures r != ""
  {
    if p == "" then "."
    else
      var slashes :=
        if !IsAbs(p) then 0
        else if |p| >= 2 && p[1] == '/' && !(|p| >= 3 && p[2] == '/') then 2
        else 1;
      var body := JoinSlash(NormComps(SplitSlash(p), [], slashes > 0));
      var r := seq(slashes, _ => '/') + body;
      if r == "" then "." else r
  }

  /** `posixpath.abspath(p)`. */
  function AbsPath(env: Env, p: string): string
  {
    NormPath(if IsAbs(p) then p else Join(env.cwd, p))
  }

  /** An absolute working directory gives absolute results. */
  lemma AbsPathIsAbs(env: Env, p: string)
    requires IsAbs(env.cwd)
    ensures IsAbs(AbsPath(env, p))
  {
    var q := if IsAbs(p) then p else Join(env.cwd, p);
    assert IsAbs(q);
  }

  /**
   * `posixpath.expanduser(p)`: a leading `~` is the user's home, `~name` the
   * home of user `name`; a user the password database does not know, or a
   * path that does not start with `~`, is returned unchanged.
   */
  function ExpandUser(env: Env, p: string): (r: string)
    ensures p == "" || p[0] != '~' ==> r == p
  {
    if p == "" || p[0] != '~' then p
    else
      var i := 1 + Run(p, 1, NotSlash);
      var name := p[1..i];
      if i != 1 && name !in env.homes then p
      else
        var home := if i == 1 then env.home else env.homes[name];
        var r := StripTrailingSlashes(home) + p[i..];
        if r == "" then "/" else r
  }

  /**
   * `~name` followed by nothing or by a `/...` rest: the home of `name`
   * without its trailing slashes, then the rest (`/` when both are empty),
   * and the path itself when `name` is not a user.
   */
  lemma ExpandUserNamed(env: Env, name: string, rest: string)
    requires name != "" && '/' !in name && (rest == "" || rest[0] == '/')
    ensures var p := "~" + name + rest;
      ExpandUser(env, p) ==
        if name !in env.homes then p
        else if StripTrailingSlashes(env.homes[name]) + rest == "" then "/"
        else StripTrailingSlashes(env.homes[name]) + rest
  {
    var p := "~" + name + rest;
    forall j | 1 <= j < 1 + |name| ensures InClass(NotSlash, p[j]) {
      assert p[j] == name[j - 1];
    }
    assert 1 + |name| < |p| ==> p[1 + |name|] == rest[0];
    RunOf(p, 1, |name|, NotSlash);
    var i := 1 + Run(p, 1, NotSlash);
    assert p[1..i] == name && p[i..] == rest;
  }

  /** `Runner.expand_path`: `None` gives `''`, anything else its absolute path. */
  function ExpandPath(env: Env, p: Option<string>): string
  {
    match p
    case None => ""
    case Some(q) => AbsPath(env, ExpandUser(env, q))
  }

  /**
   * With an absolute working directory, `expand_path` of a path is an
   * absolute, normalised path, and `None` gives `''`.
   */
  lemma ExpandPathIsAbs(env: Env, p: Option<string>)
    requires IsAbs(env.cwd)
    ensures p.None? ==> ExpandPath(env, p) == ""
    ensures p.Some? ==> IsAbs(ExpandPath(env, p)) && NormPath(ExpandPath(env, p)) == ExpandPath(env, p)
  {
    if p.Some? {
      var e := ExpandUser(env, p.value);
      AbsPathIsAbs(env, e);
      var q := if IsAbs(e) then e else Join(env.cwd, e);
      assert IsAbs(q);
      NormPathIdempotent(q);
    }
  }

  /** Components `normpath` keeps under a root: none empty, `.`, `..` or holding a `'/'`. */
  predicate NormalComps(c: seq<string>)
  {
    forall k :: 0 <= k < |c| ==> c[k] != "" && c[k] != "." && c[k] != ".." && '/' !in c[k]
  }

  /** Splitting a `'/'`-joined list of slash-free components gives the list back. */
  lemma {:induction false} JoinSplitSlash(c: seq<string>)
    requires |c| > 0 && forall k :: 0 <= k < |c| ==> '/' !in c[k]
    ensures SplitSlash(JoinSlash(c)) == c
    decreases |c|
  {
    var s := JoinSlash(c);
    if |c| == 1 {
      RunOf(s, 0, |s|, NotSlash);
    } else {
      var rest := JoinSlash(c[1..]);
      assert s == c[0] + "/" + rest;
      RunOf(s, 0, |c[0]|, NotSlash);
      assert s[..|c[0]|] == c[0];
      assert s[|c[0]| + 1..] == rest;
      JoinSplitSlash(c[1..]);
      assert c == [c[0]] + c[1..];
    }
  }

  /** Normal components pass the walk unchanged. */
  lemma {:induction false} NormCompsOfNormal(c: seq<string>, acc: seq<string>, rooted: bool)
    requires NormalComps(c)
    ensures NormComps(c, acc, rooted) == acc + c
    decreases |c|
  {
    if c != [] {
      NormCompsOfNormal(c[1..], acc + [c[0]], rooted);
      assert acc + [c[0]] + c[1..] == acc + c;
    }
  }

  /** Under a root the walk keeps only normal components. */
  lemma {:induction false} NormCompsRootedNormal(c: seq<string>, acc: seq<string>)
    requires NormalComps(acc) && forall k :: 0 <= k < |c| ==> '/' !in c[k]
    ensures NormalComps(NormComps(c, acc, true))
    decreases |c|
  {
    if c != [] {
      var h := c[0];
      if h == "" || h == "." {
        NormCompsRootedNormal(c[1..], acc);
      } else if h != ".." {
        NormCompsRootedNormal(c[1..], acc + [h]);
      } else if acc != [] {
        NormCompsRootedNormal(c[1..], acc[..|acc| - 1]);
      } else {
        NormCompsRootedNormal(c[1..], acc);
      }
    }
  }

  /** `normpath` of an absolute path is absolute. */
  lemma NormPathIsAbs(p: string)
    requires IsAbs(p)
    ensures IsAbs(NormPath(p))
  {
  }

  /** `normpath` is idempotent on absolute paths. */
  lemma NormPathIdempotent(p: string)
    requires IsAbs(p)
    ensures NormPath(NormPath(p)) == NormPath(p)
  {
    var slashes := if |p| >= 2 && p[1] == '/' && !(|p| >= 3 && p[2] == '/') then 2 else 1;
    var c := NormComps(SplitSlash(p), [], true);
    NormCompsRootedNormal(SplitSlash(p), []);
    var r := seq(slashes, _ => '/') + JoinSlash(c);
    assert NormPath(p) == r;
    if c == [] {
      NormPathRoot();
      assert r == seq(slashes, _ => '/');
      if slashes == 2 {
        assert r == "//";
      } else {
        assert r == "/";
      }
    } else {
      NormPathRooted(slashes, c);
    }
  }

  /** The roots `/` and `//` are their own `normpath`. */
  lemma NormPathRoot()
    ensures NormPath("/") == "/" && NormPath("//") == "//"
  {
    NormPathSlash();
    NormPathDoubleSlash();
  }

  lemma NormPathSlash()
    ensures NormPath("/") == "/"
  {
    var r := "/";
    RunOf(r, 0, 0, NotSlash);
    assert SplitSlash(r) == [""] + SplitSlash(r[1..]);
    assert SplitSlash(r) == ["", ""];
    assert NormComps(["", ""], [], true) == [];
    assert seq(1, _ => '/') + JoinSlash([]) == "/";
  }

  lemma NormPathDoubleSlash()
    ensures NormPath("//") == "//"
  {
    var r := "//";
    assert SplitSlash("/") == ["", ""] by {
      RunOf("/", 0, 0, NotSlash);
      assert SplitSlash("/") == [""] + SplitSlash("/"[1..]);
    }
    RunOf(r, 0, 0, NotSlash);
    assert r[1..] == "/";
    assert SplitSlash(r) == [""] + SplitSlash("/");
    assert NormComps(["", "", ""], [], true) == [];
    assert seq(2, _ => '/') + JoinSlash([]) == "//";
  }

  /** A path of one or two leading slashes and normal components is its own `normpath`. */
  lemma NormPathRooted(slashes: nat, c: seq<string>)
    requires (slashes == 1 || slashes == 2) && c != [] && NormalComps(c)
    ensures NormPath(seq(slashes, _ => '/') + JoinSlash(c)) == seq(slashes, _ => '/') + JoinSlash(c)
  {
    var r := seq(slashes, _ => '/') + JoinSlash(c);
    RootedSplit(slashes, c);
    assert c[0] != "" && '/' !in c[0];
    assert r[slashes] == c[0][0];
    NormCompsOfNormal(c, [], true);
    assert [] + c == c;
  }

  /** The components of a path of one or two leading slashes: an empty one per slash, then its own. */
  lemma RootedSplit(slashes: nat, c: seq<string>)
    requires (slashes == 1 || slashes == 2) && c != [] && NormalComps(c)
    ensures var lead := seq(slashes, _ => "");
      SplitSlash(seq(slashes, _ => '/') + JoinSlash(c)) == lead + c
      && NormComps(lead + c, [], true) == NormComps(c, [], true)
  {
    var r := seq(slashes, _ => '/') + JoinSlash(c);
    var lead := seq(slashes, _ => "");
    var d := lead + c;
    forall k | 0 <= k < |d|
      ensures '/' !in d[k]
    {
      if k >= slashes {
        assert d[k] == c[k - slashes];
      }
    }
    if slashes == 2 {
      assert d[1..] == [""] + c;
      assert d[1..][1..] == c;
    } else {
      assert d[1..] == c;
    }
    assert JoinSlash(d) == r;
    JoinSplitSlash(d);
  }

  /** A rooted path of normal components is its own `normpath`. */
  lemma NormPathOfNormal(c: seq<string>)
    requires c != [] && NormalComps(c)
    ensures NormPath("/" + JoinSlash(c)) == "/" + JoinSlash(c)
  {
    var p := "/" + JoinSlash(c);
    var d := [""] + c;
    assert d[1..] == c;
    assert JoinSlash(d) == p;
    JoinSplitSlash(d);
    NormCompsOfNormal(c, [], true);
    assert [] + c == c;
    assert p[1] == c[0][0];
  }

  /** `dirname` of a name joined below a directory is that directory. */
  lemma DirnameOfChild(d: string, n: string)
    requires d != "" && d[|d| - 1] != '/' && '/' !in n
    ensures Dirname(d + "/" + n) == d
  {
    var p := d + "/" + n;
    var i := TailStart(p);
    TailHasNoSlash(p);
    assert p[|d|] == '/';
    assert i > |d|;
    assert p[..i] == d + "/";
    assert !AllSlashes(d + "/") by {
      assert (d + "/")[|d| - 1] != '/';
    }
    assert (d + "/")[..|d|] == d;
    assert StripTrailingSlashes(d + "/") == StripTrailingSlashes(d) == d;
  }
}
