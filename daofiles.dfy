/**
 * Reading and writing the DAOPHOT star-list files of `astwro.starlist.daofiles`:
 * the two-line header (`NL NX NY LOWBAD ...` over its values), sniffed one
 * character at a time so that a file without it loses as little as possible;
 * the guess of a file's type from the header and the width of its table; the
 * type of each column, looked up with fallbacks; and the conversion of a star
 * list to another file type, which adds the columns that have a default.
 */
module DaoFiles {
  import opened Common
  import opened FileFormats

  // ---------------------------------------------------------------------------
  // The string operations of Python that the header code relies on
  // ---------------------------------------------------------------------------

  /** The length of the leading run of characters that are not whitespace. */
  function WordLen(s: string): (n: nat)
    ensures n <= |s|
    ensures forall j :: 0 <= j < n ==> !IsSplitSpace(s[j])
    ensures n < |s| ==> IsSplitSpace(s[n])
  {
    if s == [] || IsSplitSpace(s[0]) then 0 else 1 + WordLen(s[1..])
  }

  /** `s.split()`: the maximal runs of non-whitespace characters, in order. */
  function Words(s: string): seq<string>
    decreases |s|
  {
    if s == [] then []
    else if IsSplitSpace(s[0]) then Words(s[1..])
    else
      var n := WordLen(s);
      [s[..n]] + Words(s[n..])
  }

  /** A token `str.split()` can return: not empty, no whitespace in it. */
  predicate Word(w: string)
  {
    w != "" && forall j :: 0 <= j < |w| ==> !IsSplitSpace(w[j])
  }

  /** Text made only of (at least one) blanks, as a numeric format pads with. */
  predicate Blanks(b: string)
  {
    b != "" && forall j :: 0 <= j < |b| ==> b[j] == ' '
  }

  /** Leading whitespace does not change the words. */
  lemma {:induction false} WordsAfterSpace(lead: string, s: string)
    requires forall j :: 0 <= j < |lead| ==> IsSplitSpace(lead[j])
    ensures Words(lead + s) == Words(s)
    decreases |lead|
  {
    if lead == [] {
      assert lead + s == s;
    } else {
      var t := lead + s;
      assert t[0] == lead[0] && IsSplitSpace(t[0]);
      assert t[1..] == lead[1..] + s;
      assert Words(t) == Words(t[1..]);
      WordsAfterSpace(lead[1..], s);
    }
  }

  /** A word followed by whitespace or nothing is the first word. */
  lemma WordsOfWord(w: string, rest: string)
    requires Word(w)
    requires rest == [] || IsSplitSpace(rest[0])
    ensures Words(w + rest) == [w] + Words(rest)
  {
    var s := w + rest;
    WordLenOf(w, rest);
    assert s[..|w|] == w && s[|w|..] == rest;
  }

  lemma {:induction false} WordLenOf(w: string, rest: string)
    requires forall j :: 0 <= j < |w| ==> !IsSplitSpace(w[j])
    requires rest == [] || IsSplitSpace(rest[0])
    ensures WordLen(w + rest) == |w|
    decreases |w|
  {
    if w != [] {
      assert (w + rest)[1..] == w[1..] + rest;
      WordLenOf(w[1..], rest);
    } else {
      assert w + rest == rest;
    }
  }

  /** The position of the first `c` in `s`, or `|s|` when there is none. */
  function CharAt(s: string, c: char): (n: nat)
    ensures n <= |s| && (n < |s| ==> s[n] == c)
    ensures forall j :: 0 <= j < n ==> s[j] != c
  {
    if s == [] || s[0] == c then 0 else 1 + CharAt(s[1..], c)
  }

  /** `s.split(c)`: the pieces between the occurrences of `c`, empty ones included. */
  function SplitSep(s: string, c: char): (r: seq<string>)
    ensures |r| > 0
    decreases |s|
  {
    var n := CharAt(s, c);
    if n == |s| then [s] else [s[..n]] + SplitSep(s[n + 1..], c)
  }

  /** `c.join(ts)`. */
  function JoinSep(ts: seq<string>, c: char): string
    requires |ts| > 0
  {
    if |ts| == 1 then ts[0] else ts[0] + [c] + JoinSep(ts[1..], c)
  }

  /** Joining pieces that do not contain the separator, then splitting, gives the pieces back. */
  lemma {:induction false} SplitJoin(ts: seq<string>, c: char)
    requires |ts| > 0
    requires forall k :: 0 <= k < |ts| ==> c !in ts[k]
    ensures SplitSep(JoinSep(ts, c), c) == ts
  {
    var s := JoinSep(ts, c);
    if |ts| == 1 {
      CharAtNone(ts[0], c);
    } else {
      var head, tail := ts[0], ts[1..];
      var rest := JoinSep(tail, c);
      assert s == head + [c] + rest;
      assert c !in head;
      CharAtFirst(head, c, rest);
      AroundSep(head, c, rest);
      assert SplitSep(s, c) == [head] + SplitSep(rest, c);
      assert forall k :: 0 <= k < |tail| ==> c !in tail[k] by {
        assert forall k :: 0 <= k < |tail| ==> tail[k] == ts[k + 1];
      }
      SplitJoin(tail, c);
      assert ts == [head] + tail;
    }
  }

  /** The pieces on either side of one separator. */
  lemma AroundSep(a: string, c: char, b: string)
    ensures (a + [c] + b)[..|a|] == a && (a + [c] + b)[|a| + 1..] == b
  {
    var s := a + [c] + b;
    assert forall j :: 0 <= j < |b| ==> s[|a| + 1 + j] == b[j];
  }

  lemma CharAtNone(s: string, c: char)
    requires c !in s
    ensures CharAt(s, c) == |s|
  {
  }

  lemma {:induction false} CharAtFirst(a: string, c: char, b: string)
    requires c !in a
    ensures CharAt(a + [c] + b, c) == |a|
  {
    if a != [] {
      assert a[0] in a;
      assert (a + [c] + b)[1..] == a[1..] + [c] + b;
      CharAtFirst(a[1..], c, b);
    }
  }

  /** What the header walk writes for tokens that are all present: each token followed by a blank. */
  function Spaced(ts: seq<string>): string
  {
    if ts == [] then "" else ts[0] + " " + Spaced(ts[1..])
  }

  /** The non-empty tokens, in order. */
  function NonEmpty(ts: seq<string>): (r: seq<string>)
    ensures |r| <= |ts|
  {
    if ts == [] then [] else (if ts[0] == "" then [] else [ts[0]]) + NonEmpty(ts[1..])
  }

  /** No whitespace inside. */
  predicate Spaceless(w: string)
  {
    forall j :: 0 <= j < |w| ==> !IsSplitSpace(w[j])
  }

  /** Spaced tokens, none with whitespace inside, split back into the non-empty ones. */
  lemma {:induction false} WordsOfSpaced(ts: seq<string>, tail: string)
    requires forall k :: 0 <= k < |ts| ==> Spaceless(ts[k])
    requires tail == [] || IsSplitSpace(tail[0])
    ensures Words(Spaced(ts) + tail) == NonEmpty(ts) + Words(tail)
  {
    if ts == [] {
      assert Spaced(ts) + tail == tail;
    } else {
      var after := Spaced(ts[1..]) + tail;
      WordsOfSpaced(ts[1..], tail);
      assert Spaced(ts) + tail == ts[0] + (" " + after);
      SpacedWords(ts[0], after, NonEmpty(ts[1..]), Words(tail));
      assert NonEmpty(ts) == (if ts[0] == "" then [] else [ts[0]]) + NonEmpty(ts[1..]);
    }
  }

  /** One spaced token in front of text whose words are known. */
  lemma SpacedWords(t: string, after: string, n: seq<string>, w: seq<string>)
    requires Spaceless(t) && Words(after) == n + w
    ensures Words(t + (" " + after)) == (if t == "" then [] else [t]) + n + w
  {
    SpacedStep(t, after);
    ConcatAssoc(if t == "" then [] else [t], n, w);
  }

  /** One token and the blank after it, in front of more text. */
  lemma SpacedStep(t: string, after: string)
    requires Spaceless(t)
    ensures Words(t + (" " + after)) == (if t == "" then [] else [t]) + Words(after)
  {
    assert Words(" " + after) == Words(after) by {
      assert (" " + after)[1..] == after;
    }
    if t == "" {
      assert t + (" " + after) == " " + after;
    } else {
      WordsOfWord(t, " " + after);
    }
  }

  /** Values padded with blanks on the left, one after another, split back into the values. */
  lemma {:induction false} WordsOfPadded(pad: seq<string>, ws: seq<string>, tail: string)
    requires |pad| == |ws|
    requires forall k :: 0 <= k < |ws| ==> Blanks(pad[k]) && Word(ws[k])
    requires tail == [] || IsSplitSpace(tail[0])
    ensures Words(Concat(Padded(pad, ws)) + tail) == ws + Words(tail)
  {
    if ws == [] {
      assert Concat(Padded(pad, ws)) + tail == tail;
    } else {
      var rest := Concat(Padded(pad[1..], ws[1..])) + tail;
      WordsOfPadded(pad[1..], ws[1..], tail);
      assert Padded(pad, ws) == [pad[0] + ws[0]] + Padded(pad[1..], ws[1..]);
      assert Concat(Padded(pad, ws)) + tail == pad[0] + (ws[0] + rest);
      PaddedStart(pad[1..], ws[1..], tail);
      PaddedStep(pad[0], ws[0], rest);
      assert ws == [ws[0]] + ws[1..];
    }
  }

  /** What follows a padded value starts with whitespace, or is empty. */
  lemma PaddedStart(pad: seq<string>, ws: seq<string>, tail: string)
    requires |pad| == |ws|
    requires forall k :: 0 <= k < |ws| ==> Blanks(pad[k])
    requires tail == [] || IsSplitSpace(tail[0])
    ensures var rest := Concat(Padded(pad, ws)) + tail; rest == [] || IsSplitSpace(rest[0])
  {
    if ws != [] {
      assert Concat(Padded(pad, ws)) == (pad[0] + ws[0]) + Concat(Padded(pad, ws)[1..]);
      assert (Concat(Padded(pad, ws)) + tail)[0] == pad[0][0];
    }
  }

  /** One padded value in front of whitespace or nothing. */
  lemma PaddedStep(b: string, w: string, rest: string)
    requires Blanks(b) && Word(w)
    requires rest == [] || IsSplitSpace(rest[0])
    ensures Words(b + (w + rest)) == [w] + Words(rest)
  {
    WordsAfterSpace(b, w + rest);
    WordsOfWord(w, rest);
  }

  /** Each value preceded by its padding. */
  function Padded(pad: seq<string>, ws: seq<string>): (r: seq<string>)
    requires |pad| == |ws|
    ensures |r| == |ws|
    ensures forall k :: 0 <= k < |ws| ==> r[k] == pad[k] + ws[k]
  {
    if ws == [] then [] else [pad[0] + ws[0]] + Padded(pad[1..], ws[1..])
  }

  // ---------------------------------------------------------------------------
  // The header line and its values
  // ---------------------------------------------------------------------------

  /** The header keys, in the order of the first line. */
  const HeaderKeys := ["NL", "NX", "NY", "LOWBAD", "HIGHBAD", "THRESH", "AP1", "PH/ADU", "RNOISE", "FRAD"]

  /**
   * How many empty pieces `split(' ')` finds in front of each key of the first
   * line: one blank before `NL`, four between `NL` and `NX`, and so on.
   */
  const HeaderGaps: seq<nat> := [1, 3, 3, 1, 0, 1, 4, 1, 1, 3]

  /** `second_line_frmt`, the format of each key's value, in key order. */
  const HeaderFormats := ["{:3.0f}", "{:6.0f}", "{:6.0f}", "{:8.1f}", "{:8.1f}", "{:8.2f}",
                          "{:8.2f}", "{:8.2f}", "{:8.2f}", "{:8.2f}"]

  /** Each key behind its empty pieces. */
  function Pieces(gaps: seq<nat>, keys: seq<string>): (r: seq<string>)
    requires |gaps| == |keys|
    ensures |r| >= |keys|
    ensures forall k :: 0 <= k < |r| ==> r[k] == "" || r[k] in keys
  {
    if keys == [] then []
    else
      var rest := Pieces(gaps[1..], keys[1..]);
      var r := seq(gaps[0], _ => "") + [keys[0]] + rest;
      assert forall k :: gaps[0] < k < |r| ==> r[k] == rest[k - gaps[0] - 1];
      r
  }

  /** `DAO_file_firstline.split(' ')`. */
  const HeaderTokens := Pieces(HeaderGaps, HeaderKeys)

  /**
   * `DAO_file_firstline`, `' NL    NX    NY  LOWBAD ...'`: the pieces joined
   * by single blanks.
   */
  const DaoFirstLine := JoinSep(HeaderTokens, ' ')

  lemma {:induction false} NonEmptyAppend(a: seq<string>, b: seq<string>)
    ensures NonEmpty(a + b) == NonEmpty(a) + NonEmpty(b)
  {
    if a == [] {
      assert a + b == b;
    } else {
      assert (a + b)[1..] == a[1..] + b;
      NonEmptyAppend(a[1..], b);
    }
  }

  lemma {:induction false} NonEmptyOfEmpties(n: nat)
    ensures NonEmpty(seq(n, _ => "")) == []
  {
    if n > 0 {
      assert seq(n, _ => "")[1..] == seq(n - 1, _ => "");
      NonEmptyOfEmpties(n - 1);
    }
  }

  /** The non-empty pieces are the keys, when no key is empty. */
  lemma {:induction false} NonEmptyPieces(gaps: seq<nat>, keys: seq<string>)
    requires |gaps| == |keys|
    requires forall k :: 0 <= k < |keys| ==> keys[k] != ""
    ensures NonEmpty(Pieces(gaps, keys)) == keys
  {
    if keys != [] {
      var e := seq(gaps[0], _ => "");
      NonEmptyPieces(gaps[1..], keys[1..]);
      NonEmptyOfEmpties(gaps[0]);
      NonEmptyAppend(e, [keys[0]]);
      NonEmptyAppend(e + [keys[0]], Pieces(gaps[1..], keys[1..]));
      assert NonEmpty([keys[0]]) == [keys[0]];
      assert keys == [keys[0]] + keys[1..];
    }
  }

  /** The keys are different, none is empty and none holds whitespace. */
  lemma HeaderKeysWords()
    ensures AllDistinct(HeaderKeys)
    ensures forall k :: 0 <= k < |HeaderKeys| ==> Word(HeaderKeys[k]) && ' ' !in HeaderKeys[k]
  {
  }

  /** Each token followed by a blank is the tokens joined by blanks, and one more. */
  lemma {:induction false} SpacedJoin(ts: seq<string>)
    requires |ts| > 0
    ensures Spaced(ts) == JoinSep(ts, ' ') + " "
  {
    if |ts| > 1 {
      SpacedJoin(ts[1..]);
    }
  }

  /** No header token holds whitespace. */
  lemma TokensSpaceless()
    ensures forall k :: 0 <= k < |HeaderTokens| ==> Spaceless(HeaderTokens[k]) && ' ' !in HeaderTokens[k]
  {
    HeaderKeysWords();
  }

  /** The first line splits on its blanks into the header tokens. */
  lemma FirstLineSplit()
    ensures SplitSep(DaoFirstLine, ' ') == HeaderTokens
  {
    TokensSpaceless();
    SplitJoin(HeaderTokens, ' ');
  }

  /** The non-empty header tokens are the keys, one per format. */
  lemma HeaderKeysListed()
    ensures NonEmpty(HeaderTokens) == HeaderKeys
    ensures |HeaderKeys| == |HeaderFormats| == 10
  {
    HeaderKeysWords();
    NonEmptyPieces(HeaderGaps, HeaderKeys);
  }

  /** Every header token followed by a blank is the first line and one blank more. */
  lemma HeaderSpaced()
    ensures Spaced(HeaderTokens) == DaoFirstLine + " "
  {
    SpacedJoin(HeaderTokens);
  }

  /** A dictionary of header keys to their texts, like `StarList.DAO_hdr`. */
  type Header = map<string, string>

  /**
   * The walk of `dump_dao_hdr` over the tokens `ts`, each non-empty one taking
   * the next of the formats `fs`: the first and second lines it builds, or the
   * error `float(val)` raised. A key missing from the header ends the walk (the
   * `KeyError` is caught), without the blank that would follow it.
   */
  function Dump(ts: seq<string>, fs: seq<string>, hdr: Header, formatFloat: (string, string) -> Result<string>)
    : Result<(string, string)>
    requires |NonEmpty(ts)| <= |fs|
  {
    if ts == [] then Ok(("", ""))
    else if ts[0] == "" then
      assert NonEmpty(ts) == NonEmpty(ts[1..]);
      Then(" ", "", Dump(ts[1..], fs, hdr, formatFloat))
    else if ts[0] !in hdr then Ok(("", ""))
    else
      assert NonEmpty(ts) == [ts[0]] + NonEmpty(ts[1..]);
      match formatFloat(fs[0], hdr[ts[0]])
      case Err(e) => Err(e)
      case Ok(v) => Then(ts[0] + " ", v, Dump(ts[1..], fs[1..], hdr, formatFloat))
  }

  /** The lines `a` and `b` followed by what `r` built, or `r`'s error. */
  function Then(a: string, b: string, r: Result<(string, string)>): Result<(string, string)>
  {
    if r.Err? then r else Ok((a + r.value.0, b + r.value.1))
  }

  /** The two lines `dump_dao_hdr` builds, before the prefix and the line breaks are added. */
  function DumpLines(hdr: Header, formatFloat: (string, string) -> Result<string>): Result<(string, string)>
  {
    HeaderKeysListed();
    Dump(HeaderTokens, HeaderFormats, hdr, formatFloat)
  }

  /** `dump_dao_hdr(hdr, line_prefix)`: both lines, each behind the prefix and ended by a line break. */
  function DumpText(hdr: Header, prefix: string, formatFloat: (string, string) -> Result<string>): Result<string>
  {
    var r := DumpLines(hdr, formatFloat);
    if r.Err? then Err(r.error) else Ok(prefix + r.value.0 + "\n" + prefix + r.value.1 + "\n")
  }

  /**
   * `dump_dao_hdr`: walks the tokens of the first line, writing each key
   * present and the value formatted for it, a blank after every token, and
   * stops at the first key the header lacks. The float formatting of a value
   * with a format is `formatFloat`, which fails where `float(val)` raises.
   */
  method DumpDaoHdr(hdr: Header, prefix: string, formatFloat: (string, string) -> Result<string>)
    returns (r: Result<string>)
    ensures r == DumpText(hdr, prefix, formatFloat)
  {
    FirstLineSplit();
    HeaderKeysListed();
    var tokens := SplitSep(DaoFirstLine, ' ');
    var lines := DumpWalk(tokens, HeaderFormats, hdr, formatFloat);
    if lines.Err? {
      return Err(lines.error);
    }
    r := Ok(prefix + lines.value.0 + "\n" + prefix + lines.value.1 + "\n");
  }

  /**
   * The loop of `dump_dao_hdr` over the tokens `ts`: `fs` are the formats
   * still to be popped, in the order `pop()` yields them from the reversed list.
   */
  method DumpWalk(ts: seq<string>, fs: seq<string>, hdr: Header, formatFloat: (string, string) -> Result<string>)
    returns (r: Result<(string, string)>)
    requires |NonEmpty(ts)| <= |fs|
    ensures r == Dump(ts, fs, hdr, formatFloat)
  {
    var firstLine, secondLine := "", "";
    var i, f := 0, 0;
    ThenNothing(Dump(ts, fs, hdr, formatFloat));
    while i < |ts|
      invariant 0 <= i <= |ts| && 0 <= f <= |fs|
      invariant |NonEmpty(ts[i..])| <= |fs[f..]|
      invariant Dump(ts, fs, hdr, formatFloat) == Then(firstLine, secondLine, Dump(ts[i..], fs[f..], hdr, formatFloat))
    {
      var token := ts[i];
      assert ts[i..][1..] == ts[i + 1..];
      ghost var fl0, sl0, f0 := firstLine, secondLine, f;
      if token != "" {
        if token !in hdr {
          assert Dump(ts[i..], fs[f..], hdr, formatFloat) == Ok(("", ""));
          break;
        }
        var val := hdr[token];
        firstLine := firstLine + token;
        var fmt := fs[f];
        assert fs[f..][1..] == fs[f + 1..];
        f := f + 1;
        var v := formatFloat(fmt, val);
        if v.Err? {
          return Err(v.error);
        }
        secondLine := secondLine + v.value;
        assert ts[i..][0] == token && fs[f0..][0] == fmt;
        assert Dump(ts[i..], fs[f0..], hdr, formatFloat)
          == Then(token + " ", v.value, Dump(ts[i + 1..], fs[f..], hdr, formatFloat));
        ThenThen(fl0, sl0, token + " ", v.value, Dump(ts[i + 1..], fs[f..], hdr, formatFloat));
        ConcatAssoc(fl0, token, " ");
      } else {
        assert ts[i..][0] == token;
        assert Dump(ts[i..], fs[f0..], hdr, formatFloat) == Then(" ", "", Dump(ts[i + 1..], fs[f..], hdr, formatFloat));
        ThenThen(fl0, sl0, " ", "", Dump(ts[i + 1..], fs[f..], hdr, formatFloat));
        assert sl0 + "" == sl0;
      }
      firstLine := firstLine + " ";
      i := i + 1;
    }
    assert firstLine + "" == firstLine && secondLine + "" == secondLine;
    r := Ok((firstLine, secondLine));
  }

  lemma ThenNothing(r: Result<(string, string)>)
    ensures Then("", "", r) == r
  {
    if r.Ok? {
      assert "" + r.value.0 == r.value.0 && "" + r.value.1 == r.value.1;
    }
  }

  lemma ThenThen(a: string, b: string, c: string, d: string, r: Result<(string, string)>)
    ensures Then(a, b, Then(c, d, r)) == Then(a + c, b + d, r)
  {
    if r.Ok? {
      ConcatAssoc(a, c, r.value.0);
      ConcatAssoc(b, d, r.value.1);
    }
  }

  // ---------------------------------------------------------------------------
  // What the dump writes
  // ---------------------------------------------------------------------------

  /** The tokens up to the first key the header lacks. */
  function Cut(ts: seq<string>, hdr: Header): (c: seq<string>)
    ensures |c| <= |ts| && c == ts[..|c|]
  {
    if ts == [] || (ts[0] != "" && ts[0] !in hdr) then []
    else [ts[0]] + Cut(ts[1..], hdr)
  }

  /** How many keys, from the first, the header has. */
  function Present(ks: seq<string>, hdr: Header): (j: nat)
    ensures j <= |ks| && forall m :: 0 <= m < j ==> ks[m] in hdr
    ensures j < |ks| ==> ks[j] !in hdr
  {
    if ks == [] || ks[0] !in hdr then 0 else 1 + Present(ks[1..], hdr)
  }

  /** Each key's value formatted with the next format, or the first error. */
  function FormatAll(ks: seq<string>, fs: seq<string>, hdr: Header, formatFloat: (string, string) -> Result<string>)
    : (r: Result<seq<string>>)
    requires |ks| <= |fs| && forall m :: 0 <= m < |ks| ==> ks[m] in hdr
    ensures r.Ok? ==> |r.value| == |ks|
    ensures r.Ok? <==> forall m :: 0 <= m < |ks| ==> formatFloat(fs[m], hdr[ks[m]]).Ok?
    ensures r.Ok? ==> forall m :: 0 <= m < |ks| ==> r.value[m] == formatFloat(fs[m], hdr[ks[m]]).value
  {
    if ks == [] then Ok([])
    else
      var v := formatFloat(fs[0], hdr[ks[0]]);
      if v.Err? then Err(v.error)
      else
        var rest := FormatAll(ks[1..], fs[1..], hdr, formatFloat);
        if rest.Err? then rest else Ok([v.value] + rest.value)
  }

  /** The non-empty tokens before the first missing key are the keys the header has, from the first. */
  lemma {:induction false} CutKeys(ts: seq<string>, hdr: Header)
    ensures NonEmpty(Cut(ts, hdr)) == NonEmpty(ts)[..Present(NonEmpty(ts), hdr)]
  {
    if ts != [] {
      CutKeys(ts[1..], hdr);
      var ks := NonEmpty(ts[1..]);
      if ts[0] == "" {
        assert NonEmpty(ts) == ks;
        assert NonEmpty(Cut(ts, hdr)) == NonEmpty([ts[0]] + Cut(ts[1..], hdr));
        assert ([ts[0]] + Cut(ts[1..], hdr))[1..] == Cut(ts[1..], hdr);
      } else if ts[0] in hdr {
        assert NonEmpty(ts) == [ts[0]] + ks;
        assert ([ts[0]] + Cut(ts[1..], hdr))[1..] == Cut(ts[1..], hdr);
        assert ([ts[0]] + ks)[1..] == ks;
        assert ([ts[0]] + ks)[..1 + Present(ks, hdr)] == [ts[0]] + ks[..Present(ks, hdr)];
      } else {
        assert NonEmpty(ts) == [ts[0]] + ks;
      }
    }
  }

  /**
   * The walk, stated without the walk: the first line is the tokens up to
   * the first missing key, each followed by a blank; the second line is the
   * values of the keys before it, each in its own format, one after another;
   * and the dump fails exactly when one of those values cannot be formatted.
   */
  predicate CutAndFormat(ts: seq<string>, fs: seq<string>, hdr: Header, formatFloat: (string, string) -> Result<string>)
    requires |NonEmpty(ts)| <= |fs|
  {
    var ks := NonEmpty(Cut(ts, hdr));
    |ks| <= |fs| && (forall m :: 0 <= m < |ks| ==> ks[m] in hdr) &&
    Dump(ts, fs, hdr, formatFloat) ==
      match FormatAll(ks, fs, hdr, formatFloat)
      case Err(e) => Err(e)
      case Ok(vs) => Ok((Spaced(Cut(ts, hdr)), Concat(vs)))
  }

  lemma {:induction false} DumpIsCutAndFormat(ts: seq<string>, fs: seq<string>, hdr: Header,
                                               formatFloat: (string, string) -> Result<string>)
    requires |NonEmpty(ts)| <= |fs|
    ensures CutAndFormat(ts, fs, hdr, formatFloat)
  {
    CutKeys(ts, hdr);
    if ts == [] {
    } else if ts[0] == "" {
      assert NonEmpty(ts) == NonEmpty(ts[1..]);
      DumpIsCutAndFormat(ts[1..], fs, hdr, formatFloat);
      BlankStep(ts, fs, hdr, formatFloat);
    } else if ts[0] in hdr {
      assert NonEmpty(ts) == [ts[0]] + NonEmpty(ts[1..]);
      DumpIsCutAndFormat(ts[1..], fs[1..], hdr, formatFloat);
      KeyStep(ts, fs, hdr, formatFloat);
    }
  }

  lemma BlankStep(ts: seq<string>, fs: seq<string>, hdr: Header, formatFloat: (string, string) -> Result<string>)
    requires ts != [] && ts[0] == "" && |NonEmpty(ts)| <= |fs|
    requires NonEmpty(ts) == NonEmpty(ts[1..])
    requires CutAndFormat(ts[1..], fs, hdr, formatFloat)
    ensures CutAndFormat(ts, fs, hdr, formatFloat)
  {
    BlankCut(ts, hdr);
    var d := Dump(ts[1..], fs, hdr, formatFloat);
    assert Dump(ts, fs, hdr, formatFloat) == Then(" ", "", d);
    var r := FormatAll(NonEmpty(Cut(ts[1..], hdr)), fs, hdr, formatFloat);
    if r.Ok? {
      assert "" + Concat(r.value) == Concat(r.value);
    }
  }

  lemma BlankCut(ts: seq<string>, hdr: Header)
    requires ts != [] && ts[0] == ""
    ensures NonEmpty(Cut(ts, hdr)) == NonEmpty(Cut(ts[1..], hdr))
    ensures Spaced(Cut(ts, hdr)) == " " + Spaced(Cut(ts[1..], hdr))
  {
    var c := Cut(ts[1..], hdr);
    assert Cut(ts, hdr) == [ts[0]] + c;
    assert ([ts[0]] + c)[1..] == c;
  }

  lemma {:induction false} KeyStep(ts: seq<string>, fs: seq<string>, hdr: Header, formatFloat: (string, string) -> Result<string>)
    requires ts != [] && ts[0] != "" && ts[0] in hdr && |NonEmpty(ts)| <= |fs|
    requires NonEmpty(ts) == [ts[0]] + NonEmpty(ts[1..])
    requires CutAndFormat(ts[1..], fs[1..], hdr, formatFloat)
    ensures CutAndFormat(ts, fs, hdr, formatFloat)
  {
    var c := Cut(ts[1..], hdr);
    var ks := NonEmpty(c);
    assert Cut(ts, hdr) == [ts[0]] + c;
    assert ([ts[0]] + c)[1..] == c;
    assert NonEmpty(Cut(ts, hdr)) == [ts[0]] + ks;
    assert ([ts[0]] + ks)[1..] == ks;
    assert Spaced(Cut(ts, hdr)) == ts[0] + " " + Spaced(c);
    var v := formatFloat(fs[0], hdr[ts[0]]);
    if v.Ok? {
      var r := FormatAll(ks, fs[1..], hdr, formatFloat);
      if r.Ok? {
        assert ([v.value] + r.value)[1..] == r.value;
        assert Concat([v.value] + r.value) == v.value + Concat(r.value);
      }
    }
  }

  /** Spacing out two runs of tokens one after the other. */
  lemma {:induction false} SpacedAppend(a: seq<string>, b: seq<string>)
    ensures Spaced(a + b) == Spaced(a) + Spaced(b)
  {
    if a == [] {
      assert a + b == b;
    } else {
      assert (a + b)[1..] == a[1..] + b;
      SpacedAppend(a[1..], b);
    }
  }

  /** When the header has every key, nothing is cut. */
  lemma {:induction false} CutNothing(ts: seq<string>, hdr: Header)
    requires Present(NonEmpty(ts), hdr) == |NonEmpty(ts)|
    ensures Cut(ts, hdr) == ts
  {
    if ts != [] {
      if ts[0] == "" {
        assert NonEmpty(ts) == NonEmpty(ts[1..]);
      } else {
        assert NonEmpty(ts) == [ts[0]] + NonEmpty(ts[1..]);
        assert ([ts[0]] + NonEmpty(ts[1..]))[1..] == NonEmpty(ts[1..]);
      }
      CutNothing(ts[1..], hdr);
    }
  }

  /**
   * The walk over any tokens without whitespace writes the keys the header
   * has, from the first up to the first it lacks, in their order; spaced out,
   * they start the spaced-out tokens, and are all of them when no key is
   * missing.
   */
  lemma DumpOrder(ts: seq<string>, fs: seq<string>, hdr: Header, formatFloat: (string, string) -> Result<string>)
    requires |NonEmpty(ts)| <= |fs|
    requires forall k :: 0 <= k < |ts| ==> Spaceless(ts[k])
    ensures var ks := NonEmpty(ts); var j := Present(ks, hdr); var r := Dump(ts, fs, hdr, formatFloat);
      (r.Ok? <==> FormatAll(ks[..j], fs, hdr, formatFloat).Ok?) &&
      (r.Ok? ==>
        Words(r.value.0) == ks[..j] &&
        r.value.0 <= Spaced(ts) &&
        (j == |ks| ==> r.value.0 == Spaced(ts)) &&
        r.value.1 == Concat(FormatAll(ks[..j], fs, hdr, formatFloat).value))
  {
    var c := Cut(ts, hdr);
    DumpIsCutAndFormat(ts, fs, hdr, formatFloat);
    CutKeys(ts, hdr);
    assert Words(Spaced(c)) == NonEmpty(c) by {
      assert forall k :: 0 <= k < |c| ==> Spaceless(c[k]) by {
        assert forall k :: 0 <= k < |c| ==> c[k] == ts[k];
      }
      WordsOfSpaced(c, "");
      assert Spaced(c) + "" == Spaced(c);
    }
    assert Spaced(c) <= Spaced(ts) by {
      SplitJoins(ts, |c|);
      SpacedAppend(c, ts[|c|..]);
    }
    if Present(NonEmpty(ts), hdr) == |NonEmpty(ts)| {
      CutNothing(ts, hdr);
    }
  }

  /** The header keys `dump_dao_hdr` writes: those up to the first one `hdr` lacks. */
  function Kept(hdr: Header): (ks: seq<string>)
    ensures |ks| <= |HeaderFormats| && forall m :: 0 <= m < |ks| ==> ks[m] in hdr
  {
    assert |HeaderKeys| == |HeaderFormats| == 10;
    HeaderKeys[..Present(HeaderKeys, hdr)]
  }

  /**
   * `dump_dao_hdr` writes the header's keys in the order of the first line,
   * from `NL` up to the first key the header lacks, and no further: its
   * first line is the start of `DAO_file_firstline` (and a blank) holding
   * exactly those keys, all of it when the header has all ten keys; it fails
   * exactly when one of those keys' values cannot be formatted, and its second
   * line is their formatted values, in the same order.
   */
  lemma DumpKeysInOrder(hdr: Header, formatFloat: (string, string) -> Result<string>)
    ensures var ks := Kept(hdr); var r := DumpLines(hdr, formatFloat);
      (r.Ok? <==> FormatAll(ks, HeaderFormats, hdr, formatFloat).Ok?) &&
      (r.Ok? ==>
        Words(r.value.0) == ks &&
        r.value.0 <= DaoFirstLine + " " &&
        (|ks| == |HeaderKeys| ==> r.value.0 == DaoFirstLine + " ") &&
        r.value.1 == Concat(FormatAll(ks, HeaderFormats, hdr, formatFloat).value))
  {
    HeaderKeysListed();
    TokensSpaceless();
    HeaderSpaced();
    DumpOrder(HeaderTokens, HeaderFormats, hdr, formatFloat);
  }

  // ---------------------------------------------------------------------------
  // Reading the header back
  // ---------------------------------------------------------------------------

  /** `s[n:]` for a non-negative `n`. */
  function Drop(s: string, n: nat): (r: string)
    ensures n <= |s| ==> r == s[n..]
  {
    if n <= |s| then s[n..] else ""
  }

  /** `zip(a, b)`: pairs up to the shorter of the two. */
  function Zip(a: seq<string>, b: seq<string>): (r: seq<(string, string)>)
    ensures |r| == if |a| <= |b| then |a| else |b|
    ensures forall m :: 0 <= m < |r| ==> r[m] == (a[m], b[m])
  {
    if a == [] || b == [] then [] else [(a[0], b[0])] + Zip(a[1..], b[1..])
  }

  /**
   * `parse_dao_hdr(hdr, val, line_prefix)`: both lines lose as many
   * characters as the prefix has, and their words are zipped into a
   * dictionary.
   */
  function ParseDaoHdr(hdr: string, val: string, prefix: string): Header
  {
    DictOf(Zip(Words(Drop(hdr, |prefix|)), Words(Drop(val, |prefix|))))
  }

  /**
   * The parsed header has the keys of the first line that have a value in the
   * second (keys or values beyond the shorter line are dropped), and when no
   * key repeats, each key has the value in its position.
   */
  lemma ParsePairs(hdr: string, val: string, prefix: string)
    ensures var ks, vs := Words(Drop(hdr, |prefix|)), Words(Drop(val, |prefix|));
      var n := if |ks| <= |vs| then |ks| else |vs|;
      ParseDaoHdr(hdr, val, prefix).Keys == (set m | 0 <= m < n :: ks[m]) &&
      (AllDistinct(ks) ==> forall m :: 0 <= m < n ==> ParseDaoHdr(hdr, val, prefix)[ks[m]] == vs[m])
  {
    ZipDict(Words(Drop(hdr, |prefix|)), Words(Drop(val, |prefix|)));
  }

  /** The dictionary of `zip(ks, vs)`: its keys, and its values when no key repeats. */
  lemma ZipDict(ks: seq<string>, vs: seq<string>)
    ensures var n := if |ks| <= |vs| then |ks| else |vs|;
      DictOf(Zip(ks, vs)).Keys == (set m | 0 <= m < n :: ks[m]) &&
      (AllDistinct(ks) ==> forall m :: 0 <= m < n ==> DictOf(Zip(ks, vs))[ks[m]] == vs[m])
  {
    var z := Zip(ks, vs);
    assert (set i | 0 <= i < |z| :: z[i].0) == (set m | 0 <= m < |z| :: ks[m]) by {
      assert forall i :: 0 <= i < |z| ==> z[i].0 == ks[i];
    }
    if AllDistinct(ks) {
      DictOfLookup(z);
    }
  }

  /** What the walk's two lines, each with a line break after it, split into. */
  lemma DumpedWords(ts: seq<string>, fs: seq<string>, hdr: Header, formatFloat: (string, string) -> Result<string>,
                    pads: seq<string>, ws: seq<string>)
    requires |NonEmpty(ts)| <= |fs|
    requires forall k :: 0 <= k < |ts| ==> Spaceless(ts[k])
    requires |pads| == |ws| == Present(NonEmpty(ts), hdr)
    requires forall m :: 0 <= m < |ws| ==>
      formatFloat(fs[m], hdr[NonEmpty(ts)[m]]) == Ok(pads[m] + ws[m]) && Blanks(pads[m]) && Word(ws[m])
    ensures var r := Dump(ts, fs, hdr, formatFloat);
      r.Ok? && Words(r.value.0 + "\n") == NonEmpty(ts)[..|ws|] && Words(r.value.1 + "\n") == ws
  {
    var ks := NonEmpty(ts);
    var c := Cut(ts, hdr);
    DumpIsCutAndFormat(ts, fs, hdr, formatFloat);
    CutKeys(ts, hdr);
    var f := FormatAll(ks[..|ws|], fs, hdr, formatFloat);
    assert f.Ok? && f.value == Padded(pads, ws);
    CutLineWords(ts, hdr);
    PaddedLineWords(pads, ws);
  }

  /** The first line of the walk, with its line break, splits into the keys it names. */
  lemma CutLineWords(ts: seq<string>, hdr: Header)
    requires forall k :: 0 <= k < |ts| ==> Spaceless(ts[k])
    ensures Words(Spaced(Cut(ts, hdr)) + "\n") == NonEmpty(Cut(ts, hdr))
  {
    var c := Cut(ts, hdr);
    assert Words("\n") == [] by {
      assert "\n"[1..] == "";
    }
    assert forall k :: 0 <= k < |c| ==> Spaceless(c[k]) by {
      assert c == ts[..|c|];
    }
    WordsOfSpaced(c, "\n");
    assert NonEmpty(c) + [] == NonEmpty(c);
  }

  /** The second line of the walk, with its line break, splits into the values. */
  lemma PaddedLineWords(pads: seq<string>, ws: seq<string>)
    requires |pads| == |ws|
    requires forall k :: 0 <= k < |ws| ==> Blanks(pads[k]) && Word(ws[k])
    ensures Words(Concat(Padded(pads, ws)) + "\n") == ws
  {
    assert Words("\n") == [] by {
      assert "\n"[1..] == "";
    }
    WordsOfPadded(pads, ws, "\n");
    assert ws + [] == ws;
  }

  /**
   * Dumping a header whose values format as a number padded with blanks on
   * the left, then parsing the two lines with the same prefix, gives back
   * the header's keys up to the first missing one, each with its value as
   * formatted.
   */
  lemma DumpThenParse(hdr: Header, prefix: string, formatFloat: (string, string) -> Result<string>,
                      pads: seq<string>, ws: seq<string>)
    requires |pads| == |ws| == Present(HeaderKeys, hdr)
    requires forall m :: 0 <= m < |ws| ==>
      formatFloat(HeaderFormats[m], hdr[HeaderKeys[m]]) == Ok(pads[m] + ws[m]) && Blanks(pads[m]) && Word(ws[m])
    ensures var r := DumpLines(hdr, formatFloat);
      r.Ok? &&
      var parsed := ParseDaoHdr(prefix + r.value.0 + "\n", prefix + r.value.1 + "\n", prefix);
      parsed.Keys == (set m | 0 <= m < |ws| :: HeaderKeys[m]) &&
      forall m :: 0 <= m < |ws| ==> parsed[HeaderKeys[m]] == ws[m]
  {
    HeaderKeysListed();
    TokensSpaceless();
    HeaderKeysWords();
    DumpedWords(HeaderTokens, HeaderFormats, hdr, formatFloat, pads, ws);
    ParseDumped(HeaderKeys, hdr, prefix, DumpLines(hdr, formatFloat).value, ws);
  }

  /** Parsing two lines behind a prefix whose words are distinct keys and their values. */
  lemma ParseDumped(keys: seq<string>, hdr: Header, prefix: string, lines: (string, string), ws: seq<string>)
    requires AllDistinct(keys) && |ws| <= |keys|
    requires Words(lines.0 + "\n") == keys[..|ws|] && Words(lines.1 + "\n") == ws
    ensures var parsed := ParseDaoHdr(prefix + lines.0 + "\n", prefix + lines.1 + "\n", prefix);
      parsed.Keys == (set m | 0 <= m < |ws| :: keys[m]) &&
      forall m :: 0 <= m < |ws| ==> parsed[keys[m]] == ws[m]
  {
    var a, b := prefix + lines.0 + "\n", prefix + lines.1 + "\n";
    assert Drop(a, |prefix|) == lines.0 + "\n";
    assert Drop(b, |prefix|) == lines.1 + "\n";
    var ks := keys[..|ws|];
    assert ParseDaoHdr(a, b, prefix) == DictOf(Zip(ks, ws));
    assert forall m :: 0 <= m < |ws| ==> ks[m] == keys[m];
    assert AllDistinct(ks);
    ZipDict(ks, ws);
    assert (set m | 0 <= m < |ws| :: ks[m]) == (set m | 0 <= m < |ws| :: keys[m]);
  }

  // ---------------------------------------------------------------------------
  // Reading the header from a stream
  // ---------------------------------------------------------------------------

  /** An `io.StringIO` opened for reading: its text and the position reached. */
  class TextStream {
    const text: string
    var pos: nat

    ghost predicate Valid()
      reads this
    {
      pos <= |text|
    }

    constructor(t: string)
      ensures Valid() && text == t && pos == 0
    {
      text := t;
      pos := 0;
    }

    /** `read(1)`: the next character, or `''` at the end. */
    method Read1() returns (r: string)
      requires Valid()
      modifies this
      ensures Valid()
      ensures old(pos) < |text| ==> r == [text[old(pos)]] && pos == old(pos) + 1
      ensures old(pos) == |text| ==> r == "" && pos == old(pos)
    {
      if pos < |text| {
        r := [text[pos]];
        pos := pos + 1;
      } else {
        r := "";
      }
    }

    /** `readline()`: the text up to and including the next line break, or to the end. */
    method ReadLine() returns (r: string)
      requires Valid()
      modifies this
      ensures Valid() && pos == LineEnd(text, old(pos)) && r == text[old(pos)..pos]
    {
      var e := pos;
      while e < |text| && text[e] != '\n'
        invariant pos <= e <= |text|
        invariant Run(text, pos, NotNewline) == (e - pos) + Run(text, e, NotNewline)
      {
        e := e + 1;
      }
      if e < |text| {
        e := e + 1;
      }
      r := text[pos..e];
      pos := e;
    }
  }

  /** Where a line read from position `p` ends: after its line break, or at the end of the text. */
  function LineEnd(t: string, p: nat): (e: nat)
    requires p <= |t|
    ensures p <= e <= |t|
  {
    var n := p + Run(t, p, NotNewline);
    if n < |t| then n + 1 else n
  }

  /** A whole line at position `p` is what `readline()` reads there. */
  lemma LineAt(t: string, p: nat, l: string)
    requires p + |l| <= |t| && t[p..p + |l|] == l && IsLine(l)
    ensures LineEnd(t, p) == p + |l|
  {
    assert forall j :: p <= j < p + |l| - 1 ==> InClass(NotNewline, t[j]) by {
      assert forall j :: p <= j < p + |l| ==> t[j] == l[j - p];
    }
    assert t[p + |l| - 1] == l[|l| - 1];
    RunOf(t, p, |l| - 1, NotNewline);
  }

  /** How many characters from position `p` agree with `sig`, from its first. */
  function MatchLen(t: string, p: nat, sig: string): (m: nat)
    requires p <= |t|
    ensures m <= |sig| && p + m <= |t|
    ensures t[p..p + m] == sig[..m]
    ensures m < |sig| ==> p + m == |t| || t[p + m] != sig[m]
    decreases |sig|
  {
    if sig == [] || p == |t| || t[p] != sig[0] then 0
    else
      var m := 1 + MatchLen(t, p + 1, sig[1..]);
      assert t[p..p + m] == [t[p]] + t[p + 1..p + m];
      assert sig[..m] == [sig[0]] + sig[1..][..m - 1];
      m
  }

  /** What `read_dao_header` returns: no header and the characters it read, or the parsed header. */
  datatype HeaderRead = NoHeader(stolen: string) | Found(hdr: Header)

  /** The signature a header line starts with, behind the prefix. */
  function Signature(prefix: string): string
  {
    prefix + " NL"
  }

  /** What `read_dao_header` takes from the stream: the characters read when the signature is missed, or the two header lines. */
  datatype Taken = Stolen(chars: string) | HeaderLines(first: string, second: string)

  /**
   * What `read_dao_header(stream, line_prefix)` takes from text `t` at
   * position `p`, and where it leaves the stream. It reads one character at
   * a time while they agree with the signature; a character that differs, or
   * the end of the text, ends the attempt with what was read. After the
   * whole signature it reads the rest of the line and the next line.
   */
  function TakenAt(t: string, p: nat, prefix: string): (Taken, nat)
    requires p <= |t|
  {
    var sig := Signature(prefix);
    var m := MatchLen(t, p, sig);
    if m < |sig| then
      var e := if p + m < |t| then p + m + 1 else p + m;
      (Stolen(t[p..e]), e)
    else
      var e1 := LineEnd(t, p + m);
      var e2 := LineEnd(t, e1);
      (HeaderLines(sig + t[p + m..e1], t[e1..e2]), e2)
  }

  /** What `read_dao_header` returns for what it took: no header and the characters, or the two lines parsed. */
  function Interpret(taken: Taken, prefix: string): HeaderRead
  {
    match taken
    case Stolen(s) => NoHeader(s)
    case HeaderLines(a, b) => Found(ParseDaoHdr(a, b, prefix))
  }

  /** `read_dao_header(stream, line_prefix)`: what it takes from the stream, interpreted. */
  method ReadDaoHeader(stream: TextStream, prefix: string) returns (r: HeaderRead)
    requires stream.Valid()
    modifies stream
    ensures stream.Valid()
    ensures var (taken, e) := TakenAt(stream.text, old(stream.pos), prefix);
      r == Interpret(taken, prefix) && stream.pos == e
  {
    var taken := TakeHeader(stream, prefix);
    r := Interpret(taken, prefix);
  }

  /** The reading loop of `read_dao_header`, and the two `readline()` calls after a whole signature. */
  method TakeHeader(stream: TextStream, prefix: string) returns (taken: Taken)
    requires stream.Valid()
    modifies stream
    ensures stream.Valid()
    ensures (taken, stream.pos) == TakenAt(stream.text, old(stream.pos), prefix)
  {
    ghost var t, p := stream.text, stream.pos;
    var stolen, whole := ReadSignature(stream, prefix);
    if !whole {
      return Stolen(stolen);
    }
    ghost var q := stream.pos;
    var line := stream.ReadLine();
    ghost var e1 := stream.pos;
    var val := stream.ReadLine();
    MatchAll(t, p, prefix);
    assert stolen == t[p..q] && line == t[q..e1] && val == t[e1..stream.pos];
    taken := HeaderLines(stolen + line, val);
  }

  /**
   * The loop of `read_dao_header`: one character at a time while they agree
   * with the signature. Either the whole signature was read, or the
   * attempt ended with what `read_dao_header` returns.
   */
  method ReadSignature(stream: TextStream, prefix: string) returns (stolen: string, whole: bool)
    requires stream.Valid()
    modifies stream
    ensures stream.Valid()
    ensures whole ==>
      var q := old(stream.pos) + |Signature(prefix)|;
      stream.pos == q <= |stream.text| && stolen == Signature(prefix) && stream.text[old(stream.pos)..q] == stolen
    ensures !whole ==> (Stolen(stolen), stream.pos) == TakenAt(stream.text, old(stream.pos), prefix)
  {
    var signature := Signature(prefix);
    ghost var p := stream.pos;
    ghost var m := MatchLen(stream.text, p, signature);
    stolen := "";
    var i := 0;
    while i < |signature|
      invariant stream.Valid() && i <= m
      invariant stream.pos == p + i && stolen == stream.text[p..p + i]
    {
      var c := signature[i];
      var r1 := stream.Read1();
      stolen := stolen + r1;
      if [c] != r1 {
        MismatchAt(stream.text, p, prefix, i, r1);
        assert stolen == stream.text[p..p + i] + r1 && stream.pos == p + i + |r1|;
        return stolen, false;
      }
      i := i + 1;
    }
    assert signature[..m] == signature;
    whole := true;
  }

  /** The character read where the signature is first missed ends the attempt there. */
  lemma MismatchAt(t: string, p: nat, prefix: string, i: nat, r: string)
    requires p <= |t| && i < |Signature(prefix)| && i <= MatchLen(t, p, Signature(prefix))
    requires r == (if p + i < |t| then [t[p + i]] else "")
    requires [Signature(prefix)[i]] != r
    ensures TakenAt(t, p, prefix) == (Stolen(t[p..p + i] + r), p + i + |r|)
  {
    var sig := Signature(prefix);
    var m := MatchLen(t, p, sig);
    MatchedPrefix(t, p, sig, m, i);
    if p + i < |t| {
      assert [t[p + i]] == r;
      SliceExtend(t, p, p + i);
    } else {
      assert t[p..p + i] + r == t[p..p + i];
    }
    MatchLenIs(t, p, sig, i);
    assert m == i < |sig|;
  }

  /** A text that agrees with `sig` for `m` characters agrees for any `i <= m`. */
  lemma MatchedPrefix(t: string, p: nat, sig: string, m: nat, i: nat)
    requires i <= m <= |sig| && p + m <= |t| && t[p..p + m] == sig[..m]
    ensures t[p..p + i] == sig[..i]
  {
    assert t[p..p + i] == t[p..p + m][..i] && sig[..i] == sig[..m][..i];
  }

  lemma SliceExtend(t: string, a: nat, b: nat)
    requires a <= b < |t|
    ensures t[a..b] + [t[b]] == t[a..b + 1]
  {
  }

  /** After the whole signature, the two lines read are the ones the header is parsed from. */
  lemma MatchAll(t: string, p: nat, prefix: string)
    requires p + |Signature(prefix)| <= |t| && t[p..p + |Signature(prefix)|] == Signature(prefix)
    ensures var q := p + |Signature(prefix)|; var e1 := LineEnd(t, q); var e2 := LineEnd(t, e1);
      TakenAt(t, p, prefix) == (HeaderLines(t[p..q] + t[q..e1], t[e1..e2]), e2)
  {
    MatchLenIs(t, p, Signature(prefix), |Signature(prefix)|);
  }

  /**
   * What `read_dao_header` takes: it finds a header exactly when the text
   * from `p` starts with the signature, and then takes the line starting
   * there and the next; otherwise it takes the characters that agree with
   * the signature and the first that does not, or all that is left when the
   * text ends first.
   */
  lemma {:induction false} ReadOutcome(t: string, p: nat, prefix: string)
    requires p <= |t|
    ensures var (taken, e) := TakenAt(t, p, prefix); var sig := Signature(prefix);
      p <= e <= |t| &&
      (taken.HeaderLines? <==> sig <= t[p..]) &&
      (taken.HeaderLines? ==>
        var e1 := LineEnd(t, p + |sig|);
        taken.first == t[p..e1] && taken.second == t[e1..e] && e == LineEnd(t, e1)) &&
      (taken.Stolen? ==>
        var s := taken.chars;
        s == t[p..e] && |s| <= |sig| &&
        ((s < sig && e == |t|) || (s != "" && s[..|s| - 1] == sig[..|s| - 1] && s[|s| - 1] != sig[|s| - 1])))
  {
    var sig := Signature(prefix);
    if sig <= t[p..] {
      HeaderTaken(t, p, prefix);
    } else {
      StolenShape(t, p, sig);
    }
  }

  /** With the whole signature, the line starting there and the next are taken. */
  lemma HeaderTaken(t: string, p: nat, prefix: string)
    requires p <= |t| && Signature(prefix) <= t[p..]
    ensures var (taken, e) := TakenAt(t, p, prefix); var e1 := LineEnd(t, p + |Signature(prefix)|);
      taken == HeaderLines(t[p..e1], t[e1..e]) && e == LineEnd(t, e1)
  {
    var sig := Signature(prefix);
    assert t[p..][..|sig|] == t[p..p + |sig|];
    MatchAll(t, p, prefix);
    var e1 := LineEnd(t, p + |sig|);
    assert t[p..p + |sig|] + t[p + |sig|..e1] == t[p..e1];
  }

  /** Without the whole signature, the characters taken agree with it up to the last, or the text ends. */
  lemma {:induction false} StolenShape(t: string, p: nat, sig: string)
    requires p <= |t| && !(sig <= t[p..])
    ensures var m := MatchLen(t, p, sig); var e := if p + m < |t| then p + m + 1 else p + m;
      var s := t[p..e];
      m < |sig| && |s| <= |sig| &&
      ((s < sig && e == |t|) || (s != "" && s[..|s| - 1] == sig[..|s| - 1] && s[|s| - 1] != sig[|s| - 1]))
  {
    var m := MatchLen(t, p, sig);
    if p + m < |t| {
      assert t[p..p + m + 1][..m] == t[p..p + m];
    }
  }

  /** `MatchLen` is the length its contract describes. */
  lemma {:induction false} MatchLenIs(t: string, p: nat, sig: string, m: nat)
    requires m <= |sig| && p + m <= |t| && t[p..p + m] == sig[..m]
    requires m < |sig| ==> p + m == |t| || t[p + m] != sig[m]
    ensures MatchLen(t, p, sig) == m
    decreases m
  {
    if m > 0 {
      assert t[p..p + m] == [t[p]] + t[p + 1..p + m];
      assert sig[..m] == [sig[0]] + sig[1..][..m - 1];
      MatchLenIs(t, p + 1, sig[1..], m - 1);
    }
  }

  // ---------------------------------------------------------------------------
  // Writing the header and reading it back
  // ---------------------------------------------------------------------------

  /** A first gap of one puts an empty piece before the first key. */
  lemma PiecesStart(gaps: seq<nat>, keys: seq<string>)
    requires |gaps| == |keys| >= 1 && gaps[0] == 1
    ensures var r := Pieces(gaps, keys); |r| >= 2 && r[0] == "" && r[1] == keys[0]
  {
  }

  /** `DAO_file_firstline` starts with a blank and `NL`. */
  lemma TokensStart()
    ensures |HeaderTokens| >= 2 && HeaderTokens[0] == "" && HeaderTokens[1] == "NL"
  {
    PiecesStart(HeaderGaps, HeaderKeys);
  }

  /** Tokens without whitespace, each followed by a blank, hold no line break. */
  lemma {:induction false} SpacedNoBreak(ts: seq<string>)
    requires forall k :: 0 <= k < |ts| ==> Spaceless(ts[k])
    ensures '\n' !in Spaced(ts)
  {
    if ts != [] {
      SpacedNoBreak(ts[1..]);
      assert '\n' !in ts[0];
    }
  }

  /** Pieces without a line break join into text without one. */
  lemma {:induction false} ConcatNoBreak(ss: seq<string>)
    requires forall k :: 0 <= k < |ss| ==> '\n' !in ss[k]
    ensures '\n' !in Concat(ss)
  {
    if ss != [] {
      ConcatNoBreak(ss[1..]);
    }
  }

  /**
   * Tokens starting with an empty one and a key the header has, whose values
   * format as blanks and a word, dump a first line that starts with a blank
   * and that key, and neither line holds a line break.
   */
  lemma DumpShape(ts: seq<string>, fs: seq<string>, hdr: Header, formatFloat: (string, string) -> Result<string>,
                  pads: seq<string>, ws: seq<string>)
    requires |NonEmpty(ts)| <= |fs|
    requires forall k :: 0 <= k < |ts| ==> Spaceless(ts[k])
    requires |ts| >= 2 && ts[0] == "" && ts[1] in hdr
    requires |pads| == |ws| == Present(NonEmpty(ts), hdr)
    requires forall m :: 0 <= m < |ws| ==>
      formatFloat(fs[m], hdr[NonEmpty(ts)[m]]) == Ok(pads[m] + ws[m]) && Blanks(pads[m]) && Word(ws[m])
    ensures var r := Dump(ts, fs, hdr, formatFloat);
      r.Ok? && |r.value.0| >= 1 + |ts[1]| && r.value.0[..1 + |ts[1]|] == " " + ts[1] &&
      '\n' !in r.value.0 && '\n' !in r.value.1
  {
    DumpIsCutAndFormat(ts, fs, hdr, formatFloat);
    DumpedWords(ts, fs, hdr, formatFloat, pads, ws);
    CutKeys(ts, hdr);
    CutStart(ts, hdr);
    assert FormatAll(NonEmpty(ts)[..|ws|], fs, hdr, formatFloat).value == Padded(pads, ws);
    PaddedNoBreak(pads, ws);
  }

  /** The tokens kept, each followed by a blank, start with a blank and the second token, and hold no line break. */
  lemma CutStart(ts: seq<string>, hdr: Header)
    requires forall k :: 0 <= k < |ts| ==> Spaceless(ts[k])
    requires |ts| >= 2 && ts[0] == "" && ts[1] in hdr
    ensures var s := Spaced(Cut(ts, hdr)); |s| >= 1 + |ts[1]| && s[..1 + |ts[1]|] == " " + ts[1] && '\n' !in s
  {
    var c := Cut(ts, hdr);
    assert ts[1..][1..] == ts[2..];
    assert Cut(ts[1..], hdr) == [ts[1]] + Cut(ts[2..], hdr);
    assert c == [""] + ([ts[1]] + Cut(ts[2..], hdr));
    assert c[1..][1..] == c[2..];
    var head := " " + ts[1];
    assert Spaced(c) == head + (" " + Spaced(c[2..]));
    assert forall k :: 0 <= k < |c| ==> Spaceless(c[k]) by {
      assert c == ts[..|c|];
    }
    SpacedNoBreak(c);
  }

  /** Words behind blanks hold no line break. */
  lemma PaddedNoBreak(pads: seq<string>, ws: seq<string>)
    requires |pads| == |ws|
    requires forall m :: 0 <= m < |ws| ==> Blanks(pads[m]) && Word(ws[m])
    ensures '\n' !in Concat(Padded(pads, ws))
  {
    var vs := Padded(pads, ws);
    assert IsSplitSpace('\n');
    assert forall k :: 0 <= k < |vs| ==> '\n' !in vs[k] by {
      forall k | 0 <= k < |vs|
        ensures '\n' !in vs[k]
      {
        assert vs[k] == pads[k] + ws[k];
      }
    }
    ConcatNoBreak(vs);
  }

  /**
   * A header with `NL` whose values format as blanks and a word dumps a
   * first line that starts with the signature, and neither line holds a line
   * break.
   */
  lemma DumpedLines(hdr: Header, formatFloat: (string, string) -> Result<string>, pads: seq<string>, ws: seq<string>)
    requires "NL" in hdr
    requires |pads| == |ws| == Present(HeaderKeys, hdr)
    requires forall m :: 0 <= m < |ws| ==>
      formatFloat(HeaderFormats[m], hdr[HeaderKeys[m]]) == Ok(pads[m] + ws[m]) && Blanks(pads[m]) && Word(ws[m])
    ensures var r := DumpLines(hdr, formatFloat);
      r.Ok? && |r.value.0| >= 3 && r.value.0[..3] == " NL" && '\n' !in r.value.0 && '\n' !in r.value.1
  {
    HeaderKeysListed();
    TokensSpaceless();
    TokensStart();
    DumpShape(HeaderTokens, HeaderFormats, hdr, formatFloat, pads, ws);
  }

  /** Two whole lines, the first starting with the signature, are what `read_dao_header` takes. */
  lemma ReadTwoLines(t: string, l1: string, l2: string, rest: string, prefix: string)
    requires t == l1 + l2 + rest
    requires IsLine(l1) && IsLine(l2) && Signature(prefix) <= l1
    ensures TakenAt(t, 0, prefix) == (HeaderLines(l1, l2), |l1| + |l2|)
  {
    var q := |Signature(prefix)|;
    assert l1[q - 1] == 'L';
    LineEnds(l1, l2, rest, q);
    assert t[0..q] == l1[..q];
    MatchAll(t, 0, prefix);
  }

  /** In two lines and what follows, `readline()` from inside the first line ends it, and then reads the second. */
  lemma LineEnds(l1: string, l2: string, rest: string, q: nat)
    requires IsLine(l1) && IsLine(l2) && q < |l1|
    ensures var t := l1 + l2 + rest;
      LineEnd(t, q) == |l1| && LineEnd(t, |l1|) == |l1| + |l2| &&
      t[0..q] + t[q..|l1|] == l1 && t[|l1|..|l1| + |l2|] == l2
  {
    var t := l1 + l2 + rest;
    assert t[..|l1|] == l1 && t[|l1|..|l1| + |l2|] == l2;
    assert t[q..|l1|] == l1[q..];
    LineAt(t, q, l1[q..]);
    LineAt(t, |l1|, l2);
  }

  /**
   * `dump_dao_hdr` then `read_dao_header` with the same prefix, on a header
   * with `NL` whose values format as blanks and a word: the reader finds the
   * header, takes exactly the two dumped lines, and parses the keys the dump
   * wrote, up to the first one the header lacks, each with its value as
   * formatted.
   */
  lemma DumpReadBack(hdr: Header, prefix: string, formatFloat: (string, string) -> Result<string>,
                     pads: seq<string>, ws: seq<string>, rest: string)
    requires "NL" in hdr && '\n' !in prefix
    requires |pads| == |ws| == Present(HeaderKeys, hdr)
    requires forall m :: 0 <= m < |ws| ==>
      formatFloat(HeaderFormats[m], hdr[HeaderKeys[m]]) == Ok(pads[m] + ws[m]) && Blanks(pads[m]) && Word(ws[m])
    ensures var d := DumpText(hdr, prefix, formatFloat);
      d.Ok? &&
      var (taken, e) := TakenAt(d.value + rest, 0, prefix);
      e == |d.value| && taken.HeaderLines? &&
      var parsed := Interpret(taken, prefix);
      parsed.Found? &&
      parsed.hdr.Keys == (set m | 0 <= m < |ws| :: HeaderKeys[m]) &&
      forall m :: 0 <= m < |ws| ==> parsed.hdr[HeaderKeys[m]] == ws[m]
  {
    HeaderKeysListed();
    TokensSpaceless();
    TokensStart();
    HeaderKeysWords();
    DumpReadBackOf(HeaderTokens, HeaderFormats, hdr, prefix, formatFloat, pads, ws, rest);
  }

  /** `DumpReadBack` for any tokens that start with an empty one and `NL`. */
  lemma DumpReadBackOf(ts: seq<string>, fs: seq<string>, hdr: Header, prefix: string,
                       formatFloat: (string, string) -> Result<string>,
                       pads: seq<string>, ws: seq<string>, rest: string)
    requires |NonEmpty(ts)| <= |fs| && AllDistinct(NonEmpty(ts))
    requires forall k :: 0 <= k < |ts| ==> Spaceless(ts[k])
    requires |ts| >= 2 && ts[0] == "" && ts[1] == "NL" && "NL" in hdr && '\n' !in prefix
    requires |pads| == |ws| == Present(NonEmpty(ts), hdr)
    requires forall m :: 0 <= m < |ws| ==>
      formatFloat(fs[m], hdr[NonEmpty(ts)[m]]) == Ok(pads[m] + ws[m]) && Blanks(pads[m]) && Word(ws[m])
    ensures var r := Dump(ts, fs, hdr, formatFloat);
      r.Ok? &&
      var (taken, e) := TakenAt(prefix + r.value.0 + "\n" + prefix + r.value.1 + "\n" + rest, 0, prefix);
      e == |prefix + r.value.0 + "\n" + prefix + r.value.1 + "\n"| && taken.HeaderLines? &&
      var parsed := Interpret(taken, prefix);
      parsed.Found? &&
      parsed.hdr.Keys == (set m | 0 <= m < |ws| :: NonEmpty(ts)[m]) &&
      forall m :: 0 <= m < |ws| ==> parsed.hdr[NonEmpty(ts)[m]] == ws[m]
  {
    DumpShape(ts, fs, hdr, formatFloat, pads, ws);
    DumpedWords(ts, fs, hdr, formatFloat, pads, ws);
    var (a, b) := Dump(ts, fs, hdr, formatFloat).value;
    ParseDumped(NonEmpty(ts), hdr, prefix, (a, b), ws);
    ReadBackLines(prefix + a + "\n" + prefix + b + "\n" + rest, a, b, prefix, rest);
  }

  /** Two dumped lines behind the prefix, the first starting with a blank and `NL`, are what the reader takes. */
  lemma ReadBackLines(t: string, a: string, b: string, prefix: string, rest: string)
    requires t == prefix + a + "\n" + prefix + b + "\n" + rest
    requires '\n' !in prefix && '\n' !in a && '\n' !in b && |a| >= 3 && a[..3] == " NL"
    ensures var l1, l2 := prefix + a + "\n", prefix + b + "\n";
      TakenAt(t, 0, prefix) == (HeaderLines(l1, l2), |l1| + |l2|)
  {
    var l1, l2 := prefix + a + "\n", prefix + b + "\n";
    LineOf(prefix + a);
    LineOf(prefix + b);
    assert Signature(prefix) == l1[..|prefix| + 3];
    ReadTwoLines(t, l1, l2, rest, prefix);
  }

  /**
   * A header without `NL` dumps a blank and a line break, then an empty
   * line, and `read_dao_header` does not recognise it: it stops at the line
   * break, where `N` was expected, having taken the prefix, the blank and the
   * line break.
   */
  lemma DumpWithoutNL(hdr: Header, prefix: string, formatFloat: (string, string) -> Result<string>, rest: string)
    requires "NL" !in hdr
    ensures DumpText(hdr, prefix, formatFloat) == Ok(prefix + " \n" + prefix + "\n")
    ensures TakenAt(prefix + " \n" + prefix + "\n" + rest, 0, prefix) == (Stolen(prefix + " \n"), |prefix| + 2)
  {
    HeaderKeysListed();
    TokensStart();
    DumpStopsAtSecond(HeaderTokens, HeaderFormats, hdr, formatFloat);
    var (a, b) := DumpLines(hdr, formatFloat).value;
    BlankDump(prefix, a, b, rest);
  }

  /** The dump of a blank and nothing, behind the prefix, and what the reader takes of it. */
  lemma BlankDump(prefix: string, a: string, b: string, rest: string)
    requires a == " " && b == ""
    ensures prefix + a + "\n" + prefix + b + "\n" == prefix + " \n" + prefix + "\n"
    ensures TakenAt(prefix + " \n" + prefix + "\n" + rest, 0, prefix) == (Stolen(prefix + " \n"), |prefix| + 2)
  {
    assert prefix + a + "\n" == prefix + " \n";
    NoSignature(prefix + " \n" + prefix + "\n" + rest, prefix);
  }

  /** Tokens starting with an empty one and a key the header lacks dump a blank and nothing else. */
  lemma DumpStopsAtSecond(ts: seq<string>, fs: seq<string>, hdr: Header, formatFloat: (string, string) -> Result<string>)
    requires |NonEmpty(ts)| <= |fs|
    requires |ts| >= 2 && ts[0] == "" && ts[1] != "" && ts[1] !in hdr
    ensures Dump(ts, fs, hdr, formatFloat) == Ok((" ", ""))
  {
    assert NonEmpty(ts) == NonEmpty(ts[1..]);
    assert Dump(ts[1..], fs, hdr, formatFloat) == Ok(("", ""));
    assert " " + "" == " " && "" + "" == "";
  }

  /** The prefix, a blank and a line break miss the signature at the line break. */
  lemma NoSignature(t: string, prefix: string)
    requires |prefix| + 2 <= |t| && t[..|prefix| + 2] == prefix + " \n"
    ensures TakenAt(t, 0, prefix) == (Stolen(prefix + " \n"), |prefix| + 2)
  {
    var sig := Signature(prefix);
    var m := |prefix| + 1;
    assert t[0..m] == sig[..m];
    assert t[m] == '\n' && sig[m] == 'N';
    MatchLenIs(t, 0, sig, m);
  }

  /** Text without a line break, and one after it, is a line. */
  lemma LineOf(s: string)
    requires '\n' !in s
    ensures IsLine(s + "\n")
  {
    assert forall j :: 0 <= j < |s| ==> (s + "\n")[j] == s[j];
  }
}
