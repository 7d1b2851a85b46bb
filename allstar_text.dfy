/**
 * The text `Allstar` feeds to ALLSTAR: the option dictionary it keeps across
 * runs (a Python `dict`, so insertion-ordered, last write wins), the option
 * block `_pre_run` puts in front of every run, and the answers of the
 * `ALlstar` command.
 */
module AllstarText {
  import opened Common

  /** An options `dict`: keys in insertion order, `None` for an unset option. */
  type OptDict = seq<(string, Option<Decimal>)>

  predicate KeysDistinct(d: OptDict)
  {
    forall i, j :: 0 <= i < j < |d| ==> d[i].0 != d[j].0
  }

  /** `d.get(k)`, with `None` for a missing key and `Some(v)` for a present one. */
  function Lookup(d: OptDict, k: string): (r: Option<Option<Decimal>>)
    ensures r.Some? <==> exists i :: 0 <= i < |d| && d[i].0 == k
  {
    if d == [] then None
    else if d[0].0 == k then Some(d[0].1)
    else
      var r := Lookup(d[1..], k);
      assert r.Some? ==> exists i :: 0 <= i < |d| && d[i].0 == k by {
        if r.Some? {
          var i :| 0 <= i < |d[1..]| && d[1..][i].0 == k;
          assert d[i + 1].0 == k;
        }
      }
      assert (exists i :: 0 <= i < |d| && d[i].0 == k) ==> r.Some? by {
        if exists i :: 0 <= i < |d| && d[i].0 == k {
          var i :| 0 <= i < |d| && d[i].0 == k;
          assert i > 0 && d[1..][i - 1].0 == k;
        }
      }
      r
  }

  /**
   * `d[k] = v`: a key already present keeps its place and takes the new value;
   * a new key goes last.
   */
  function DictSet(d: OptDict, k: string, v: Option<Decimal>): (r: OptDict)
    ensures |r| == if Lookup(d, k).Some? then |d| else |d| + 1
    ensures forall i :: 0 <= i < |d| ==> r[i].0 == d[i].0
    ensures Lookup(d, k).None? ==> r[|d|] == (k, v)
    ensures KeysDistinct(d) ==> KeysDistinct(r)
  {
    if d == [] then [(k, v)]
    else if d[0].0 == k then
      var r := [(k, v)] + d[1..];
      assert forall i :: 1 <= i < |d| ==> r[i] == d[i];
      r
    else
      var tail := DictSet(d[1..], k, v);
      var r := [d[0]] + tail;
      assert forall i :: 1 <= i < |r| ==> r[i] == tail[i - 1];
      assert KeysDistinct(d) ==> KeysDistinct(r) by {
        if KeysDistinct(d) {
          assert KeysDistinct(d[1..]) by {
            forall i, j | 0 <= i < j < |d[1..]|
              ensures d[1..][i].0 != d[1..][j].0
            {
              assert d[1..][i] == d[i + 1] && d[1..][j] == d[j + 1];
            }
          }
          forall j | 1 <= j < |r|
            ensures r[0].0 != r[j].0
          {
            if j - 1 < |d[1..]| {
              assert tail[j - 1].0 == d[1..][j - 1].0 == d[j].0;
            } else {
              assert Lookup(d[1..], k).None? && tail[j - 1] == (k, v);
            }
          }
        }
      }
      r
  }

  /** After `d[k] = v`, `k` maps to `v` and every other key to what it mapped to. */
  lemma {:induction false} DictSetLookup(d: OptDict, k: string, v: Option<Decimal>, k': string)
    ensures Lookup(DictSet(d, k, v), k') == if k' == k then Some(v) else Lookup(d, k')
  {
    var r := DictSet(d, k, v);
    if d == [] {
      assert r == [(k, v)];
      assert r[1..] == [];
    } else if d[0].0 != k {
      var tail := DictSet(d[1..], k, v);
      assert r == [d[0]] + tail;
      assert r[0] == d[0] && r[1..] == tail;
      DictSetLookup(d[1..], k, v, k');
    } else {
      assert r == [(k, v)] + d[1..];
      assert r[0] == (k, v) && r[1..] == d[1..];
    }
  }

  /** `d.update(pairs)`: the pairs are set one after another. */
  function DictUpdate(d: OptDict, pairs: OptDict): OptDict
    decreases |pairs|
  {
    if pairs == [] then d
    else
      var p := pairs[|pairs| - 1];
      DictSet(DictUpdate(d, pairs[..|pairs| - 1]), p.0, p.1)
  }

  /** The value the last pair with key `k` gives it. */
  function LastValue(pairs: OptDict, k: string): (r: Option<Option<Decimal>>)
    ensures r.None? ==> forall i :: 0 <= i < |pairs| ==> pairs[i].0 != k
    ensures r.Some? ==> exists i :: 0 <= i < |pairs| && pairs[i] == (k, r.value)
    decreases |pairs|
  {
    if pairs == [] then None
    else if pairs[|pairs| - 1].0 == k then Some(pairs[|pairs| - 1].1)
    else LastValue(pairs[..|pairs| - 1], k)
  }

  /** In a dictionary, the entry of a key is what looking the key up gives. */
  lemma {:induction false} LookupAt(d: OptDict, i: nat)
    requires KeysDistinct(d) && i < |d|
    ensures Lookup(d, d[i].0) == Some(d[i].1)
  {
    if i > 0 {
      assert KeysDistinct(d[1..]) by {
        forall a, b | 0 <= a < b < |d[1..]|
          ensures d[1..][a].0 != d[1..][b].0
        {
          assert d[1..][a] == d[a + 1] && d[1..][b] == d[b + 1];
        }
      }
      LookupAt(d[1..], i - 1);
      assert d[1..][i - 1] == d[i];
    }
  }

  /** With distinct keys, the last pair for a key is its only one. */
  lemma LastValueIsLookup(e: OptDict, k: string)
    requires KeysDistinct(e)
    ensures LastValue(e, k) == Lookup(e, k)
  {
    if LastValue(e, k).Some? {
      var i :| 0 <= i < |e| && e[i] == (k, LastValue(e, k).value);
      LookupAt(e, i);
    }
  }

  /** After an update, the last pair for a key decides it; other keys keep their values. */
  lemma {:induction false} DictUpdateLastWins(d: OptDict, pairs: OptDict, k: string)
    ensures Lookup(DictUpdate(d, pairs), k) ==
      if LastValue(pairs, k).Some? then LastValue(pairs, k) else Lookup(d, k)
    decreases |pairs|
  {
    if pairs != [] {
      var p := pairs[|pairs| - 1];
      DictUpdateLastWins(d, pairs[..|pairs| - 1], k);
      DictSetLookup(DictUpdate(d, pairs[..|pairs| - 1]), p.0, p.1, k);
    }
  }

  /** An update keeps the keys distinct. */
  lemma {:induction false} DictUpdateDistinct(d: OptDict, pairs: OptDict)
    requires KeysDistinct(d)
    ensures KeysDistinct(DictUpdate(d, pairs))
    decreases |pairs|
  {
    if pairs != [] {
      DictUpdateDistinct(d, pairs[..|pairs| - 1]);
    }
  }

  /** `dict(pairs)`. */
  function DictOf(pairs: OptDict): OptDict
  {
    DictUpdate([], pairs)
  }

  const Wait := "WA"

  /** `{'WA': 0}`: the watch-progress option off, so no animation is printed. */
  const DefaultOptions: OptDict := [(Wait, Some(Decimal(0, 0)))]

  /**
   * The options `Allstar(options=...)` starts with: the default, updated by
   * the given ones when there are any.
   */
  function InitialOptions(given: OptDict): (r: OptDict)
    ensures KeysDistinct(r)
  {
    DictUpdateDistinct(DefaultOptions, DictOf(given));
    if given == [] then DefaultOptions else DictUpdate(DefaultOptions, DictOf(given))
  }

  /** What the initial options give each key: the given value if any, else the default. */
  lemma InitialOptionsLookup(given: OptDict, k: string)
    ensures Lookup(InitialOptions(given), k) ==
      if LastValue(given, k).Some? then LastValue(given, k) else Lookup(DefaultOptions, k)
  {
    if given != [] {
      DictUpdateDistinct([], given);
      DictUpdateLastWins(DefaultOptions, DictOf(given), k);
      DictUpdateLastWins([], given, k);
      LastValueIsLookup(DictOf(given), k);
    } else {
      assert LastValue(given, k).None?;
    }
  }

  /** One `'%s=%.2f\n'` line; `fmt` is the two-decimal formatting of the number. */
  function OptionLine(fmt: Decimal -> string, k: string, v: Decimal): string
  {
    k + "=" + fmt(v) + "\n"
  }

  /** The options that are set, in dictionary order. */
  function SetEntries(d: OptDict): (r: seq<(string, Decimal)>)
    ensures |r| <= |d|
  {
    if d == [] then []
    else if d[0].1.Some? then [(d[0].0, d[0].1.value)] + SetEntries(d[1..])
    else SetEntries(d[1..])
  }

  function OptionLines(fmt: Decimal -> string, d: OptDict): string
  {
    if d == [] then ""
    else if d[0].1.Some? then OptionLine(fmt, d[0].0, d[0].1.value) + OptionLines(fmt, d[1..])
    else OptionLines(fmt, d[1..])
  }

  /** The block `_pre_run` puts first: one line per set option, then an empty line. */
  function OptionsScript(fmt: Decimal -> string, d: OptDict): string
  {
    OptionLines(fmt, d) + "\n"
  }

  /** Neither keys nor formatted values hold a line break. */
  predicate OneLineEach(fmt: Decimal -> string, d: OptDict)
  {
    forall i :: 0 <= i < |d| && d[i].1.Some? ==> '\n' !in d[i].0 && '\n' !in fmt(d[i].1.value)
  }

  lemma OptionLineIsLine(fmt: Decimal -> string, k: string, v: Decimal)
    requires '\n' !in k && '\n' !in fmt(v)
    ensures IsLine(OptionLine(fmt, k, v))
  {
    var l := OptionLine(fmt, k, v);
    forall j | 0 <= j < |l| - 1
      ensures l[j] != '\n'
    {
      if j < |k| {
        assert l[j] == k[j];
      } else if j > |k| {
        assert l[j] == fmt(v)[j - |k| - 1];
      }
    }
  }

  /**
   * ALLSTAR reads the option block as one `key=value` line per set option, in
   * dictionary order, and then the empty line that ends its option dialog.
   */
  lemma {:induction false} OptionsScriptLines(fmt: Decimal -> string, d: OptDict, rest: string)
    requires OneLineEach(fmt, d)
    ensures var lines := SplitLines(OptionLines(fmt, d) + rest);
      var opts := SetEntries(d);
      |lines| >= |opts|
      && (forall i :: 0 <= i < |opts| ==> lines[i] == OptionLine(fmt, opts[i].0, opts[i].1))
      && lines[|opts|..] == SplitLines(rest)
  {
    if d == [] {
      assert OptionLines(fmt, d) + rest == rest;
    } else {
      assert OneLineEach(fmt, d[1..]) by {
        forall i | 0 <= i < |d[1..]| && d[1..][i].1.Some?
          ensures '\n' !in d[1..][i].0 && '\n' !in fmt(d[1..][i].1.value)
        {
          assert d[1..][i] == d[i + 1];
        }
      }
      OptionsScriptLines(fmt, d[1..], rest);
      if d[0].1.Some? {
        var l := OptionLine(fmt, d[0].0, d[0].1.value);
        OptionLineIsLine(fmt, d[0].0, d[0].1.value);
        assert OptionLines(fmt, d) + rest == l + (OptionLines(fmt, d[1..]) + rest);
        SplitLinesCons(l, OptionLines(fmt, d[1..]) + rest);
        var lines := SplitLines(OptionLines(fmt, d) + rest);
        var lines' := SplitLines(OptionLines(fmt, d[1..]) + rest);
        assert lines == [l] + lines';
        assert SetEntries(d) == [(d[0].0, d[0].1.value)] + SetEntries(d[1..]);
        assert lines[|SetEntries(d)|..] == lines'[|SetEntries(d[1..])|..];
      } else {
        assert OptionLines(fmt, d) == OptionLines(fmt, d[1..]);
        assert SetEntries(d) == SetEntries(d[1..]);
      }
    }
  }

  /** The option block reads as the set options' lines and one empty line. */
  lemma OptionsScriptReadsBack(fmt: Decimal -> string, d: OptDict)
    requires OneLineEach(fmt, d)
    ensures var lines := SplitLines(OptionsScript(fmt, d));
      var opts := SetEntries(d);
      |lines| == |opts| + 1 && lines[|opts|] == "\n"
      && forall i :: 0 <= i < |opts| ==> lines[i] == OptionLine(fmt, opts[i].0, opts[i].1)
  {
    OptionsScriptLines(fmt, d, "\n");
    SplitLinesCons("\n", "");
  }

  /** `not image_file`: no file name given, or an empty one. */
  predicate Blank(name: Option<string>)
  {
    name.None? || name.value == ""
  }

  /** The image `ALlstar` works on: the argument, else the runner's image, else `i.fits`. */
  function ImageFile(arg: Option<string>, image: Option<string>): (r: string)
    ensures r != ""
    ensures !Blank(arg) ==> r == arg.value
    ensures Blank(arg) && !Blank(image) ==> r == image.value
    ensures Blank(arg) && Blank(image) ==> r == "i.fits"
  {
    if !Blank(arg) then arg.value else if !Blank(image) then image.value else "i.fits"
  }

  /**
   * The `ALlstar` answers: image, PSF, input star list, output profile
   * photometry and subtracted image, one per line; without a subtracted image
   * the last answer is left at the end of input.
   */
  function AllstarCommands(img: string, psf: string, pht: string, als: string, sub: string): string
  {
    img + "\n" + psf + "\n" + pht + "\n" + als + "\n" + sub + (if sub != "" then "\n" else "")
  }

  lemma NameLineIsLine(name: string)
    requires '\n' !in name
    ensures IsLine(name + "\n")
  {
    var l := name + "\n";
    assert forall j :: 0 <= j < |l| - 1 ==> l[j] == name[j];
  }

  /** The answers as one line each, ending with the subtracted-image line when there is one. */
  lemma AllstarCommandsParts(img: string, psf: string, pht: string, als: string, sub: string)
    ensures AllstarCommands(img, psf, pht, als, sub) ==
      (img + "\n") + ((psf + "\n") + ((pht + "\n") + ((als + "\n") + (if sub != "" then sub + "\n" else ""))))
  {
  }

  /** Four full lines in front of a text are the first four lines read. */
  lemma FourLines(a: string, b: string, c: string, d: string, rest: string)
    requires IsLine(a) && IsLine(b) && IsLine(c) && IsLine(d)
    ensures SplitLines(a + (b + (c + (d + rest)))) == [a, b, c, d] + SplitLines(rest)
  {
    SplitLinesCons(a, b + (c + (d + rest)));
    SplitLinesCons(b, c + (d + rest));
    SplitLinesCons(c, d + rest);
    SplitLinesCons(d, rest);
  }

  /** The optional last answer is one line, or nothing. */
  lemma LastAnswer(sub: string)
    requires '\n' !in sub
    ensures SplitLines(if sub != "" then sub + "\n" else "") == if sub != "" then [sub + "\n"] else []
  {
    if sub != "" {
      NameLineIsLine(sub);
      SplitLinesCons(sub + "\n", "");
      assert sub + "\n" == (sub + "\n") + "";
    }
  }

  /**
   * ALLSTAR reads one answer per line: the four file names, and the
   * subtracted-image name only when one was asked for.
   */
  lemma AllstarCommandsLines(img: string, psf: string, pht: string, als: string, sub: string)
    requires '\n' !in img && '\n' !in psf && '\n' !in pht && '\n' !in als && '\n' !in sub
    ensures SplitLines(AllstarCommands(img, psf, pht, als, sub)) ==
      [img + "\n", psf + "\n", pht + "\n", als + "\n"] + (if sub != "" then [sub + "\n"] else [])
  {
    AllstarCommandsParts(img, psf, pht, als, sub);
    NameLineIsLine(img);
    NameLineIsLine(psf);
    NameLineIsLine(pht);
    NameLineIsLine(als);
    FourLines(img + "\n", psf + "\n", pht + "\n", als + "\n", if sub != "" then sub + "\n" else "");
    LastAnswer(sub);
  }
}
