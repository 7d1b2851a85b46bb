/**
 * `astwro.tools.grepfitshdr`: grep over the main headers of FITS files.
 *
 * The file system is a map from the names of existing files to the lines of
 * their main header as the header prints (`repr(h).strip().splitlines()`);
 * the compiled case-insensitive pattern is the predicate `search`; the output
 * stream is an `Output` object whose text grows with every `print`.
 */
module GrepFitsHdr {

  /** The `filenames` argument: one name as a `str`, or a list of names. */
  datatype Files = Name(name: string) | Names(names: seq<string>)

  /** `if isinstance(filenames, str): filenames = [filenames]`. */
  function FileList(files: Files): (r: seq<string>)
    ensures files.Name? ==> r == [files.name]
    ensures files.Names? ==> r == files.names
  {
    match files
    case Name(n) => [n]
    case Names(ns) => ns
  }

  /** `headers(filenames)`: the names that are existing files, in order. */
  function Scanned(names: seq<string>, present: map<string, seq<string>>): (r: seq<string>)
    ensures |r| <= |names|
    ensures forall k :: 0 <= k < |r| ==> r[k] in present
    decreases |names|
  {
    if names == [] then []
    else
      var last := names[|names| - 1];
      Scanned(names[..|names| - 1], present) + (if last in present then [last] else [])
  }

  /** Exactly the existing files are scanned. */
  lemma {:induction false} ScannedMembers(names: seq<string>, present: map<string, seq<string>>)
    ensures forall x :: x in Scanned(names, present) <==> x in names && x in present
    decreases |names|
  {
    if names != [] {
      var front := names[..|names| - 1];
      ScannedMembers(front, present);
      assert names == front + [names[|names| - 1]];
    }
  }

  /** One more name adds itself to the scanned files when it is an existing file. */
  lemma ScannedSnoc(names: seq<string>, f: string, present: map<string, seq<string>>)
    ensures Scanned(names + [f], present) == Scanned(names, present) + (if f in present then [f] else [])
  {
    assert (names + [f])[..|names|] == names;
  }

  /** The header lines of a scanned file. */
  function Header(present: map<string, seq<string>>, f: string): seq<string>
  {
    if f in present then present[f] else []
  }

  /** A header line counts when the pattern finds it, or, inverted, when it does not. */
  predicate Counted(search: string -> bool, invert: bool, line: string)
  {
    search(line) != invert
  }

  /** The lines that count, in order. */
  function Hits(lines: seq<string>, search: string -> bool, invert: bool): (r: seq<string>)
    ensures |r| <= |lines|
    decreases |lines|
  {
    if lines == [] then []
    else
      var last := lines[|lines| - 1];
      Hits(lines[..|lines| - 1], search, invert) + (if Counted(search, invert, last) then [last] else [])
  }

  /** Exactly the counted lines are hits. */
  lemma {:induction false} HitsMembers(lines: seq<string>, search: string -> bool, invert: bool)
    ensures forall x :: x in Hits(lines, search, invert) <==> x in lines && Counted(search, invert, x)
    decreases |lines|
  {
    if lines != [] {
      var front := lines[..|lines| - 1];
      HitsMembers(front, search, invert);
      assert lines == front + [lines[|lines| - 1]];
    }
  }

  /** One more header line adds itself to the hits when it counts. */
  lemma HitsSnoc(lines: seq<string>, line: string, search: string -> bool, invert: bool)
    ensures Hits(lines + [line], search, invert) ==
      Hits(lines, search, invert) + (if Counted(search, invert, line) then [line] else [])
  {
    assert (lines + [line])[..|lines|] == lines;
  }

  /** There are no hits exactly when no line counts. */
  lemma HitsNone(lines: seq<string>, search: string -> bool, invert: bool)
    ensures Hits(lines, search, invert) == [] <==> forall x :: x in lines ==> !Counted(search, invert, x)
  {
    HitsMembers(lines, search, invert);
    if Hits(lines, search, invert) != [] {
      assert Hits(lines, search, invert)[0] in Hits(lines, search, invert);
    }
  }

  /** `printmatch` without `fileonly`: the line, after `filename: ` with `withfile`. */
  function Shown(f: string, line: string, withfile: bool): (r: string)
    ensures withfile ==> r == f + ": " + line + "\n"
    ensures !withfile ==> r == line + "\n"
  {
    (if withfile then f + ": " else "") + line + "\n"
  }

  /** The text printed for the counted lines `hits` of file `f`. */
  function Printed(f: string, hits: seq<string>, withfile: bool): string
    decreases |hits|
  {
    if hits == [] then ""
    else Printed(f, hits[..|hits| - 1], withfile) + Shown(f, hits[|hits| - 1], withfile)
  }

  lemma PrintedSnoc(f: string, hits: seq<string>, line: string, withfile: bool)
    ensures Printed(f, hits + [line], withfile) == Printed(f, hits, withfile) + Shown(f, line, withfile)
  {
    assert (hits + [line])[..|hits|] == hits;
  }

  /** The names, one per line. */
  function Listed(names: seq<string>): string
    decreases |names|
  {
    if names == [] then "" else Listed(names[..|names| - 1]) + names[|names| - 1] + "\n"
  }

  lemma ListedSnoc(names: seq<string>, f: string)
    ensures Listed(names + [f]) == Listed(names) + f + "\n"
  {
    assert (names + [f])[..|names|] == names;
  }

  /**
   * What scanning one file adds to the count: its counted lines, but at most
   * one with `fileonly`, where scanning stops at the first.
   */
  function ReportCount(lines: seq<string>, search: string -> bool, invert: bool, fileonly: bool): nat
  {
    var h := Hits(lines, search, invert);
    if fileonly then (if h == [] then 0 else 1) else |h|
  }

  /**
   * What scanning file `f` prints: its counted lines, or with `fileonly` its
   * name alone, whether a line counted or not.
   */
  function ReportText(f: string, lines: seq<string>, search: string -> bool,
                      invert: bool, withfile: bool, fileonly: bool): string
  {
    if fileonly then f + "\n" else Printed(f, Hits(lines, search, invert), withfile)
  }

  /** The report of `grep -l` as its help text describes it: the name only when a line counted. */
  function ReportTextMatchesOnly(f: string, lines: seq<string>, search: string -> bool,
                                 invert: bool, withfile: bool, fileonly: bool): string
  {
    var h := Hits(lines, search, invert);
    if fileonly then (if h == [] then "" else f + "\n") else Printed(f, h, withfile)
  }

  /** `grep`'s count over the scanned files `fs`. */
  function GrepCount(fs: seq<string>, present: map<string, seq<string>>, search: string -> bool,
                     invert: bool, fileonly: bool): nat
    decreases |fs|
  {
    if fs == [] then 0
    else
      GrepCount(fs[..|fs| - 1], present, search, invert, fileonly) +
      ReportCount(Header(present, fs[|fs| - 1]), search, invert, fileonly)
  }

  /** `grep`'s output over the scanned files `fs`. */
  function GrepText(fs: seq<string>, present: map<string, seq<string>>, search: string -> bool,
                    invert: bool, withfile: bool, fileonly: bool): string
    decreases |fs|
  {
    if fs == [] then ""
    else
      var f := fs[|fs| - 1];
      GrepText(fs[..|fs| - 1], present, search, invert, withfile, fileonly) +
      ReportText(f, Header(present, f), search, invert, withfile, fileonly)
  }

  /** `grep`'s output over the scanned files `fs` when `-l` lists only the files with a counted line. */
  function GrepTextMatchesOnly(fs: seq<string>, present: map<string, seq<string>>, search: string -> bool,
                               invert: bool, withfile: bool, fileonly: bool): string
    decreases |fs|
  {
    if fs == [] then ""
    else
      var f := fs[|fs| - 1];
      GrepTextMatchesOnly(fs[..|fs| - 1], present, search, invert, withfile, fileonly) +
      ReportTextMatchesOnly(f, Header(present, f), search, invert, withfile, fileonly)
  }

  /** One more scanned file adds its report. */
  lemma GrepSnoc(fs: seq<string>, f: string, present: map<string, seq<string>>, search: string -> bool,
                 invert: bool, withfile: bool, fileonly: bool)
    ensures GrepCount(fs + [f], present, search, invert, fileonly) ==
      GrepCount(fs, present, search, invert, fileonly) + ReportCount(Header(present, f), search, invert, fileonly)
    ensures GrepText(fs + [f], present, search, invert, withfile, fileonly) ==
      GrepText(fs, present, search, invert, withfile, fileonly) + ReportText(f, Header(present, f), search, invert, withfile, fileonly)
    ensures GrepTextMatchesOnly(fs + [f], present, search, invert, withfile, fileonly) ==
      GrepTextMatchesOnly(fs, present, search, invert, withfile, fileonly)
      + ReportTextMatchesOnly(f, Header(present, f), search, invert, withfile, fileonly)
  {
    assert (fs + [f])[..|fs|] == fs;
  }

  /** The files of `fs` with a counted line. */
  function Matching(fs: seq<string>, present: map<string, seq<string>>, search: string -> bool,
                    invert: bool): (r: seq<string>)
    ensures |r| <= |fs|
    decreases |fs|
  {
    if fs == [] then []
    else
      var f := fs[|fs| - 1];
      Matching(fs[..|fs| - 1], present, search, invert) + (if Hits(Header(present, f), search, invert) == [] then [] else [f])
  }

  /** Exactly the files with a counted line match. */
  lemma {:induction false} MatchingMembers(fs: seq<string>, present: map<string, seq<string>>, search: string -> bool,
                                           invert: bool)
    ensures forall x :: x in Matching(fs, present, search, invert) <==> x in fs && Hits(Header(present, x), search, invert) != []
    decreases |fs|
  {
    if fs != [] {
      var front := fs[..|fs| - 1];
      MatchingMembers(front, present, search, invert);
      assert fs == front + [fs[|fs| - 1]];
    }
  }

  /** `commandline_entry`'s exit code for a count. */
  function ExitCode(n: nat): int
  {
    if n > 0 then 0 else 1
  }

  /** The number of newlines in a text. */
  function Newlines(s: string): nat
    decreases |s|
  {
    if s == [] then 0 else Newlines(s[..|s| - 1]) + (if s[|s| - 1] == '\n' then 1 else 0)
  }

  lemma {:induction false} NewlinesAppend(a: string, b: string)
    ensures Newlines(a + b) == Newlines(a) + Newlines(b)
    decreases |b|
  {
    if b == [] {
      assert a + b == a;
    } else {
      var b' := b[..|b| - 1];
      assert (a + b)[..|a + b| - 1] == a + b';
      NewlinesAppend(a, b');
    }
  }

  /** A text without a newline. */
  predicate OneLine(s: string)
  {
    forall k :: 0 <= k < |s| ==> s[k] != '\n'
  }

  lemma {:induction false} NewlinesNone(s: string)
    requires OneLine(s)
    ensures Newlines(s) == 0
    decreases |s|
  {
    if s != [] {
      NewlinesNone(s[..|s| - 1]);
    }
  }

  /** A printed line holds one newline, the one its `print` ends with. */
  lemma ShownLine(f: string, line: string, withfile: bool)
    requires OneLine(f) && OneLine(line)
    ensures Newlines(Shown(f, line, withfile)) == 1
  {
    var pre := if withfile then f + ": " else "";
    NewlinesAppend(pre, line);
    NewlinesAppend(pre + line, "\n");
    NewlinesNone(line);
    assert "\n"[..0] == "";
    if withfile {
      NewlinesNone(f);
      NewlinesAppend(f, ": ");
      assert ": "[..1] == ":" && ":"[..0] == "";
    }
  }

  /** Each counted line is printed as one line of the output. */
  lemma {:induction false} PrintedLines(f: string, hits: seq<string>, withfile: bool)
    requires OneLine(f) && forall k :: 0 <= k < |hits| ==> OneLine(hits[k])
    ensures Newlines(Printed(f, hits, withfile)) == |hits|
    decreases |hits|
  {
    if hits != [] {
      var line := hits[|hits| - 1];
      PrintedLines(f, hits[..|hits| - 1], withfile);
      NewlinesAppend(Printed(f, hits[..|hits| - 1], withfile), Shown(f, line, withfile));
      ShownLine(f, line, withfile);
    }
  }

  /**
   * Without `fileonly` the count is the number of lines printed, when no file
   * name and no header line holds a newline.
   */
  lemma {:induction false} CountIsPrintedLines(fs: seq<string>, present: map<string, seq<string>>,
                                               search: string -> bool, invert: bool, withfile: bool)
    requires forall x :: x in fs ==> OneLine(x)
    requires forall x :: x in present ==> forall l :: l in present[x] ==> OneLine(l)
    ensures GrepCount(fs, present, search, invert, false) == Newlines(GrepText(fs, present, search, invert, withfile, false))
    decreases |fs|
  {
    if fs != [] {
      var f := fs[|fs| - 1];
      var front := fs[..|fs| - 1];
      assert forall x :: x in front ==> x in fs;
      CountIsPrintedLines(front, present, search, invert, withfile);
      var h := Hits(Header(present, f), search, invert);
      HitsMembers(Header(present, f), search, invert);
      assert forall k :: 0 <= k < |h| ==> h[k] in h;
      PrintedLines(f, h, withfile);
      NewlinesAppend(GrepText(front, present, search, invert, withfile, false), Printed(f, h, withfile));
    }
  }

  /**
   * With `fileonly` nothing but file names is printed: the listing is every
   * scanned file, in order, and the count is the number of those with a
   * counted line.
   */
  lemma {:induction false} FileOnlyLists(fs: seq<string>, present: map<string, seq<string>>,
                                         search: string -> bool, invert: bool, withfile: bool)
    ensures GrepCount(fs, present, search, invert, true) == |Matching(fs, present, search, invert)|
    ensures GrepText(fs, present, search, invert, withfile, true) == Listed(fs)
    decreases |fs|
  {
    if fs != [] {
      var front := fs[..|fs| - 1];
      FileOnlyLists(front, present, search, invert, withfile);
      assert fs == front + [fs[|fs| - 1]];
      ListedSnoc(front, fs[|fs| - 1]);
    }
  }

  /** Listing only the files with a counted line, `-l` lists exactly those, in order. */
  lemma {:induction false} FileOnlyListsMatches(fs: seq<string>, present: map<string, seq<string>>,
                                                search: string -> bool, invert: bool, withfile: bool)
    ensures GrepTextMatchesOnly(fs, present, search, invert, withfile, true) == Listed(Matching(fs, present, search, invert))
    decreases |fs|
  {
    if fs != [] {
      var front := fs[..|fs| - 1];
      FileOnlyListsMatches(front, present, search, invert, withfile);
      var m := Matching(fs, present, search, invert);
      var f := fs[|fs| - 1];
      var m' := Matching(front, present, search, invert);
      if Hits(Header(present, f), search, invert) != [] {
        assert m == m' + [f];
        ListedSnoc(m', f);
      } else {
        assert m == m';
      }
    }
  }

  /** Without `fileonly` both readings of `-l` print the same. */
  lemma {:induction false} SameWithoutFileOnly(fs: seq<string>, present: map<string, seq<string>>,
                                               search: string -> bool, invert: bool, withfile: bool)
    ensures GrepText(fs, present, search, invert, withfile, false) == GrepTextMatchesOnly(fs, present, search, invert, withfile, false)
    decreases |fs|
  {
    if fs != [] {
      SameWithoutFileOnly(fs[..|fs| - 1], present, search, invert, withfile);
    }
  }

  /** With `invert` the counted lines of a header are exactly the others. */
  lemma {:induction false} InvertSplits(lines: seq<string>, search: string -> bool)
    ensures |Hits(lines, search, false)| + |Hits(lines, search, true)| == |lines|
    ensures forall x :: x in lines ==> (x in Hits(lines, search, true) <==> x !in Hits(lines, search, false))
    decreases |lines|
  {
    HitsMembers(lines, search, false);
    HitsMembers(lines, search, true);
    if lines != [] {
      InvertSplits(lines[..|lines| - 1], search);
    }
  }

  /** The count is zero exactly when no scanned file has a counted line. */
  lemma {:induction false} CountZero(fs: seq<string>, present: map<string, seq<string>>, search: string -> bool,
                                     invert: bool, fileonly: bool)
    ensures GrepCount(fs, present, search, invert, fileonly) == 0 <==> Matching(fs, present, search, invert) == []
    decreases |fs|
  {
    if fs != [] {
      CountZero(fs[..|fs| - 1], present, search, invert, fileonly);
    }
  }

  /**
   * `commandline_entry` exits with 0 exactly when a scanned file has a
   * counted header line, and with 1 otherwise.
   */
  lemma ExitCodeZero(files: Files, present: map<string, seq<string>>, search: string -> bool,
                     invert: bool, fileonly: bool)
    ensures var code := ExitCode(GrepCount(Scanned(FileList(files), present), present, search, invert, fileonly));
      (code == 0 || code == 1) &&
      (code == 0 <==> exists x :: x in FileList(files) && x in present && Hits(present[x], search, invert) != [])
  {
    var fs := Scanned(FileList(files), present);
    CountZero(fs, present, search, invert, fileonly);
    var m := Matching(fs, present, search, invert);
    if m != [] {
      MatchingMembers(fs, present, search, invert);
      ScannedMembers(FileList(files), present);
      var x := m[0];
      assert x in m;
      assert x in FileList(files) && x in present && Hits(present[x], search, invert) != [];
    } else {
      forall x | x in FileList(files) && x in present
        ensures Hits(present[x], search, invert) == []
      {
        MatchingMembers(fs, present, search, invert);
        ScannedMembers(FileList(files), present);
        assert x !in m;
      }
    }
  }

  /**
   * `grep -l` lists a file none of whose header lines counts, and counts
   * nothing for it; listing only files with a counted line leaves it out.
   */
  lemma ListsUnmatchedFile(f: string, lines: seq<string>, search: string -> bool, invert: bool)
    requires forall l :: l in lines ==> !Counted(search, invert, l)
    ensures GrepText([f], map[f := lines], search, invert, false, true) == f + "\n"
    ensures GrepTextMatchesOnly([f], map[f := lines], search, invert, false, true) == ""
    ensures GrepCount([f], map[f := lines], search, invert, true) == 0
  {
    HitsNone(lines, search, invert);
    assert Header(map[f := lines], f) == lines;
    assert [f][..0] == [];
  }

  /** The output stream. */
  class Output {
    var text: string

    constructor()
      ensures text == ""
    {
      text := "";
    }

    /** `print(s, end='', file=output)`. */
    method Write(s: string)
      modifies this
      ensures text == old(text) + s
    {
      text := text + s;
    }
  }

  lemma Extend(s: seq<string>, i: nat)
    requires i < |s|
    ensures s[..i + 1] == s[..i] + [s[i]]
  {
  }

  /** What the scanning of one file adds to the output, by `fileonly`. */
  lemma ReportParts(f: string, lines: seq<string>, search: string -> bool, invert: bool, withfile: bool, fileonly: bool)
    ensures fileonly ==>
      ReportTextMatchesOnly(f, lines, search, invert, withfile, fileonly) ==
      (if ReportCount(lines, search, invert, fileonly) > 0 then f + "\n" else "")
    ensures !fileonly ==>
      ReportText(f, lines, search, invert, withfile, fileonly) == "" + Printed(f, Hits(lines, search, invert), withfile)
      && ReportTextMatchesOnly(f, lines, search, invert, withfile, fileonly) == "" + Printed(f, Hits(lines, search, invert), withfile)
  {
  }

  lemma Associate(a: string, b: string, c: string)
    ensures a + b + c == a + (b + c)
  {
  }

  /** `printmatch`: prints the line, after `filename: ` with `withfile`, unless `fileonly`. */
  method PrintMatch(output: Output, f: string, line: string, withfile: bool, fileonly: bool)
    modifies output
    ensures output.text == old(output.text) + (if fileonly then "" else Shown(f, line, withfile))
  {
    if !fileonly {
      if withfile {
        output.Write(f + ": ");
      }
      output.Write(line + "\n");
    }
  }

  /**
   * `grep(pattern, filenames, output, invert, withfile, fileonly)`: returns the
   * number of counted lines and appends what it prints to `output`.
   */
  method GrepFiles(files: Files, present: map<string, seq<string>>, search: string -> bool, output: Output,
                   invert: bool, withfile: bool, fileonly: bool) returns (n: nat)
    modifies output
    ensures var fs := Scanned(FileList(files), present);
      n == GrepCount(fs, present, search, invert, fileonly) &&
      output.text == old(output.text) + GrepText(fs, present, search, invert, withfile, fileonly)
  {
    var names := FileList(files);
    var globmatched: nat := 0;
    ghost var fs: seq<string> := [];
    for i := 0 to |names|
      invariant fs == Scanned(names[..i], present)
      invariant globmatched == GrepCount(fs, present, search, invert, fileonly)
      invariant output.text == old(output.text) + GrepText(fs, present, search, invert, withfile, fileonly)
    {
      var f := names[i];
      Extend(names, i);
      ScannedSnoc(names[..i], f, present);
      if f in present {
        var lines := present[f];
        assert Header(present, f) == lines;
        var matched := ScanFile(f, lines, search, output, invert, withfile, fileonly);
        globmatched := globmatched + matched;
        GrepSnoc(fs, f, present, search, invert, withfile, fileonly);
        Associate(old(output.text), GrepText(fs, present, search, invert, withfile, fileonly),
                  ReportText(f, lines, search, invert, withfile, fileonly));
        fs := fs + [f];
      }
    }
    assert names[..|names|] == names;
    n := globmatched;
  }

  /** The body of `grep`'s loop for the existing file `f` with header `lines`. */
  method ScanFile(f: string, lines: seq<string>, search: string -> bool, output: Output,
                  invert: bool, withfile: bool, fileonly: bool) returns (matched: nat)
    modifies output
    ensures matched == ReportCount(lines, search, invert, fileonly)
    ensures output.text == old(output.text) + ReportText(f, lines, search, invert, withfile, fileonly)
  {
    matched := ScanHeader(f, lines, search, output, invert, withfile, fileonly);
    if fileonly {
      output.Write(f + "\n");
    }
    ReportParts(f, lines, search, invert, withfile, fileonly);
  }

  /** The body of `grep`'s loop when `-l` lists only the files with a counted line. */
  method ScanFileMatchesOnly(f: string, lines: seq<string>, search: string -> bool, output: Output,
                             invert: bool, withfile: bool, fileonly: bool) returns (matched: nat)
    modifies output
    ensures matched == ReportCount(lines, search, invert, fileonly)
    ensures output.text == old(output.text) + ReportTextMatchesOnly(f, lines, search, invert, withfile, fileonly)
  {
    matched := ScanHeader(f, lines, search, output, invert, withfile, fileonly);
    if fileonly && matched > 0 {
      output.Write(f + "\n");
    }
    ReportParts(f, lines, search, invert, withfile, fileonly);
  }

  /**
   * The inner loop of `grep` over the header lines of `f`: prints the counted
   * lines (none with `fileonly`) and stops at the first one with `fileonly`.
   */
  method ScanHeader(f: string, lines: seq<string>, search: string -> bool, output: Output,
                    invert: bool, withfile: bool, fileonly: bool) returns (matched: nat)
    modifies output
    ensures matched == ReportCount(lines, search, invert, fileonly)
    ensures output.text == old(output.text) + (if fileonly then "" else Printed(f, Hits(lines, search, invert), withfile))
  {
    matched := 0;
    var j := 0;
    while j < |lines|
      invariant 0 <= j <= |lines|
      invariant matched == |Hits(lines[..j], search, invert)|
      invariant fileonly ==> matched == 0 && output.text == old(output.text)
      invariant !fileonly ==> output.text == old(output.text) + Printed(f, Hits(lines[..j], search, invert), withfile)
    {
      var line := lines[j];
      assert lines[..j + 1] == lines[..j] + [line];
      HitsSnoc(lines[..j], line, search, invert);
      var found := search(line);
      if invert {
        found := !found;
      }
      if found {
        matched := matched + 1;
        ghost var h := Hits(lines[..j], search, invert);
        ghost var before := output.text;
        PrintMatch(output, f, line, withfile, fileonly);
        if !fileonly {
          PrintedSnoc(f, h, line, withfile);
          assert output.text == before + Shown(f, line, withfile);
          assert before == old(output.text) + Printed(f, h, withfile);
          assert Hits(lines[..j + 1], search, invert) == h + [line];
          Associate(old(output.text), Printed(f, h, withfile), Shown(f, line, withfile));
        }
        if fileonly {
          HitsMembers(lines, search, invert);
          assert line in Hits(lines, search, invert);
          break;
        }
      } else {
        assert Hits(lines[..j + 1], search, invert) == Hits(lines[..j], search, invert);
      }
      j := j + 1;
    }
    if j == |lines| {
      assert lines[..j] == lines;
    }
  }
}
