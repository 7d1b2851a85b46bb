/**
 * What the DAOPHOT and ALLSTAR output processors read out of their segment
 * buffers: `picture_size` of `DPOP_ATtach`, `options` and `get_option` of
 * `DPOP_OPtion` and `AsOp_opt`, `errors` of `DpOp_PSf` and `stars_no` of
 * `AsOp_result`.
 *
 * Each regular expression of the source is written out as a scanner. The
 * picture-size pattern is decided on the buffer from a position on, together
 * with its look-behind; the option, error-row and summary patterns are
 * recursive scanners over absolute positions of the buffer, one per piece of
 * the pattern, each consuming its character class and handing over to the
 * next. These patterns leave the engine no choice (every repetition is bounded
 * by a character class its successor cannot match, and the one place where the
 * engine backtracks, in the error-row pattern, is written out), so the scanner
 * is the match. `search` is the leftmost matching position; `findall` is the
 * left-to-right sequence of non-overlapping matches, resuming at the end of
 * each match.
 */
module OutputProviders {
  import opened Common

  predicate AllSpaces(t: string)
  {
    forall k :: 0 <= k < |t| ==> IsSpace(t[k])
  }

  // ---------------------------------------------------------------- picture_size

  const PictureSizeLabel := "Picture size:"
  const AttachFailure := "daophot failed to attach image file. Output buffer:\n "

  /** The look-behind `(?<=Picture size:\s\s\s)` holds at `p`. */
  predicate PicSizeLookbehind(s: string, p: nat)
  {
    16 <= p <= |s| && OccursAt(s, PictureSizeLabel, p - 16)
    && IsSpace(s[p - 3]) && IsSpace(s[p - 2]) && IsSpace(s[p - 1])
  }

  /** `\s+([0-9]+)` at the start of `t`: its group. */
  function PicSizeHeight(t: string): (r: Option<string>)
    ensures r.Some? ==> r.value != ""
  {
    var w := Run(t, 0, Space);
    var d := Run(t[w..], 0, Digit);
    if w == 0 || d == 0 then None else Some(t[w..][..d])
  }

  /** `([0-9]+)\s+([0-9]+)` at the start of `t`: its two groups. */
  function PicSizeMatch(t: string): (r: Option<(string, string)>)
    ensures r.Some? ==> r.value.0 != "" && r.value.1 != ""
  {
    var d := Run(t, 0, Digit);
    if d == 0 then None
    else
      match PicSizeHeight(t[d..])
      case None => None
      case Some(h) => Some((t[..d], h))
  }

  /** The groups of `r_pic_size` when it matches at `p`. */
  function PicSizeAt(s: string, p: nat): (r: Option<(string, string)>)
    requires p <= |s|
    ensures r.Some? ==> PicSizeLookbehind(s, p)
  {
    if PicSizeLookbehind(s, p) then PicSizeMatch(s[p..]) else None
  }

  /** `r_pic_size.search(s, p)`: the leftmost matching position at or after `p`. */
  function SearchPicSize(s: string, p: nat): (r: Option<nat>)
    requires p <= |s|
    ensures r.Some? ==> p <= r.value <= |s| && PicSizeAt(s, r.value).Some?
    ensures r.Some? ==> forall q :: p <= q < r.value ==> PicSizeAt(s, q).None?
    ensures r.None? ==> forall q :: p <= q <= |s| ==> PicSizeAt(s, q).None?
    decreases |s| - p
  {
    if PicSizeAt(s, p).Some? then Some(p)
    else if p == |s| then None
    else SearchPicSize(s, p + 1)
  }

  /**
   * `DPOP_ATtach.picture_size`: the two integers of the leftmost match, or the
   * error that embeds the whole buffer.
   */
  function PictureSize(buf: string): (r: Result<(nat, nat)>)
    ensures r.Err? <==> forall q :: 0 <= q <= |buf| ==> PicSizeAt(buf, q).None?
    ensures r.Err? ==> r.error == RuntimeError(AttachFailure + buf)
    ensures r.Ok? ==>
      exists q :: 0 <= q <= |buf| && PicSizeAt(buf, q).Some?
        && (forall q' :: 0 <= q' < q ==> PicSizeAt(buf, q').None?)
        && r.value == (DecimalValue(PicSizeAt(buf, q).value.0), DecimalValue(PicSizeAt(buf, q).value.1))
  {
    match SearchPicSize(buf, 0)
    case None => Err(RuntimeError(AttachFailure + buf))
    case Some(q) =>
      var g := PicSizeAt(buf, q).value;
      Ok((DecimalValue(g.0), DecimalValue(g.1)))
  }

  /** The text `ATtach` prints: `Picture size:`, three blanks, width, blanks, height. */
  function AttachText(pre: string, sp: string, x: nat, gap: string, y: nat, post: string): string
  {
    pre + (PictureSizeLabel + (sp + (NatText(x) + (gap + (NatText(y) + post)))))
  }

  lemma PicSizeHeightOf(gap: string, y: nat, post: string)
    requires gap != "" && AllSpaces(gap)
    requires post == "" || !IsDigit(post[0])
    ensures PicSizeHeight(gap + (NatText(y) + post)) == Some(NatText(y))
  {
    var Y := NatText(y);
    assert IsDigit(Y[0]);
    RunWhole(gap, Y + post, Space);
    assert (gap + (Y + post))[|gap|..] == Y + post;
    RunWhole(Y, post, Digit);
    assert (Y + post)[..|Y|] == Y;
  }

  lemma PicSizeMatchOf(x: nat, gap: string, y: nat, post: string)
    requires gap != "" && AllSpaces(gap)
    requires post == "" || !IsDigit(post[0])
    ensures PicSizeMatch(NatText(x) + (gap + (NatText(y) + post))) == Some((NatText(x), NatText(y)))
  {
    var X := NatText(x);
    var R := gap + (NatText(y) + post);
    assert IsSpace(gap[0]);
    RunWhole(X, R, Digit);
    assert (X + R)[|X|..] == R;
    assert (X + R)[..|X|] == X;
    PicSizeHeightOf(gap, y, post);
  }

  /** The match right after the label and its three blanks. */
  lemma PicSizeAfterLabel(s: string, i: nat, sp: string, x: nat, gap: string, y: nat, post: string)
    requires i <= |s| && s[i..] == PictureSizeLabel + (sp + (NatText(x) + (gap + (NatText(y) + post))))
    requires |sp| == 3 && AllSpaces(sp)
    requires gap != "" && AllSpaces(gap)
    requires post == "" || !IsDigit(post[0])
    ensures PicSizeAt(s, i + 16) == Some((NatText(x), NatText(y)))
  {
    var rest := NatText(x) + (gap + (NatText(y) + post));
    DropPrefix(s, i, PictureSizeLabel, sp + rest);
    DropPrefix(s, i + 13, sp, rest);
    assert s[i..i + 13] == s[i..][..13];
    assert s[i + 13] == sp[0] && s[i + 14] == sp[1] && s[i + 15] == sp[2];
    PicSizeMatchOf(x, gap, y, post);
  }

  /** No match starts before the first label ends. */
  lemma NoPicSizeBeforeLabel(pre: string, rest: string)
    requires forall j :: 0 <= j < |pre| ==> !OccursAt(pre + PictureSizeLabel, PictureSizeLabel, j)
    ensures (forall q :: 0 <= q < |pre| + 16 && q <= |pre| + 13 + |rest| ==>
      PicSizeAt(pre + (PictureSizeLabel + rest), q).None?)
  {
    var L := PictureSizeLabel;
    var buf := pre + (L + rest);
    assert buf[..|pre| + 13] == pre + L;
    forall q | 0 <= q < |pre| + 16 && q <= |buf|
      ensures PicSizeAt(buf, q).None?
    {
      if PicSizeLookbehind(buf, q) {
        var j := q - 16;
        assert buf[j..j + 13] == (pre + L)[j..j + 13];
        assert OccursAt(pre + L, L, j);
      }
    }
  }

  /** The size read is the one of the leftmost match. */
  lemma PictureSizeFirst(s: string, i: nat, g: (string, string))
    requires i <= |s| && PicSizeAt(s, i) == Some(g)
    requires forall q :: 0 <= q < i ==> PicSizeAt(s, q).None?
    ensures PictureSize(s) == Ok((DecimalValue(g.0), DecimalValue(g.1)))
  {
    var r := SearchPicSize(s, 0);
    assert r.Some?;
    assert r.value == i;
  }

  /**
   * The size printed after the first `Picture size:` label is the size read:
   * `picture_size` reads back what `ATtach` prints.
   */
  lemma PictureSizeReadsBack(pre: string, sp: string, x: nat, gap: string, y: nat, post: string)
    requires |sp| == 3 && AllSpaces(sp)
    requires gap != "" && AllSpaces(gap)
    requires post == "" || !IsDigit(post[0])
    requires forall j :: 0 <= j < |pre| ==> !OccursAt(pre + PictureSizeLabel, PictureSizeLabel, j)
    ensures PictureSize(AttachText(pre, sp, x, gap, y, post)) == Ok((x, y))
  {
    var rest := sp + (NatText(x) + (gap + (NatText(y) + post)));
    var buf := pre + (PictureSizeLabel + rest);
    assert buf[|pre|..] == PictureSizeLabel + rest;
    PicSizeAfterLabel(buf, |pre|, sp, x, gap, y, post);
    NoPicSizeBeforeLabel(pre, rest);
    PictureSizeFirst(buf, |pre| + 16, (NatText(x), NatText(y)));
  }

  // ------------------------------------------------------------- options, get_option

  const OptionsFailure := "daophot failed to present options. Output buffer:\n "
  const AllstarOptionsFailure := "allstar failed to present options. Output buffer:\n "

  predicate IsOptionKey(k: string)
  {
    |k| == 2 && IsWordChar(k[0]) && IsWordChar(k[1])
  }

  /** Number of leading `-` of a value text: `\-?`. */
  function SignLen(v: string): (m: nat)
    ensures m <= |v|
  {
    if v != [] && v[0] == '-' then 1 else 0
  }

  /**
   * `v` has the shape of an option value from end to end: `\-?`, then `[0-9]+`,
   * then `.`, then `[0-9]*`.
   */
  predicate IsFixedText(v: string)
  {
    var m := SignLen(v);
    var d := Run(v, m, Digit);
    d > 0 && m + d < |v| && v[m + d] == '.' && m + d + 1 + Run(v, m + d + 1, Digit) == |v|
  }

  /** `float(v)` for a value text: the digits of the whole part and the fraction, scaled by the fraction's length. */
  function FixedValue(v: string): Decimal
  {
    var m := SignLen(v);
    var d := Run(v, m, Digit);
    var frac := if m + d < |v| then v[m + d + 1..] else "";
    var u: int := DecimalValue(v[m..m + d] + frac);
    Decimal(if m == 1 then -u else u, -|frac|)
  }

  /** `\-?[0-9]+\.[0-9]*` matched at `j`: the index where the match ends. */
  function NumberEnd(s: string, j: nat): (r: Option<nat>)
    requires j <= |s|
    ensures r.Some? ==> j < r.value <= |s|
  {
    var m := if j < |s| && s[j] == '-' then 1 else 0;
    var d := Run(s, j + m, Digit);
    var p := j + m + d;
    if d == 0 || p == |s| || s[p] != '.' then None
    else Some(p + 1 + Run(s, p + 1, Digit))
  }

  /** `\s*(\-?[0-9]+\.[0-9]*)` from `j`: the bounds of the value. */
  function ValueFrom(s: string, j: nat): (r: Option<(nat, nat)>)
    requires j <= |s|
    ensures r.Some? ==> j <= r.value.0 < r.value.1 <= |s|
    decreases |s| - j
  {
    if j < |s| && IsSpace(s[j]) then ValueFrom(s, j + 1)
    else
      match NumberEnd(s, j)
      case None => None
      case Some(e) => Some((j, e))
  }

  /** `[^=\n]*=\s*(\-?[0-9]+\.[0-9]*)` from `j`: the bounds of the value. */
  function KeyTail(s: string, j: nat): (r: Option<(nat, nat)>)
    requires j <= |s|
    ensures r.Some? ==> j < r.value.0 < r.value.1 <= |s|
    decreases |s| - j
  {
    if j == |s| || s[j] == '\n' then None
    else if s[j] == '=' then ValueFrom(s, j + 1)
    else KeyTail(s, j + 1)
  }

  /**
   * `r_opt` = `\b(\w\w)[^=\n]*=\s*(\-?[0-9]+\.[0-9]*)` matched at `i`: the key,
   * the value and the index where the match ends. `\b` looks at `s[i - 1]`. No
   * repetition of the pattern is followed by a character its class admits, so
   * the greedy scan finds the match backtracking would.
   */
  function OptAt(s: string, i: nat): (r: Option<(string, string, nat)>)
    requires i <= |s|
    ensures r.Some? ==> i < r.value.2 <= |s|
  {
    if (i > 0 && IsWordChar(s[i - 1])) || i + 2 > |s| || !IsWordChar(s[i]) || !IsWordChar(s[i + 1]) then None
    else
      match KeyTail(s, i + 2)
      case None => None
      case Some(v) => Some((s[i..i + 2], s[v.0..v.1], v.1))
  }

  /** `r_opt.findall(s[i:])`, with `\b` still seeing `s[i - 1]`: the (key, value) pairs. */
  function FindAllOpts(s: string, i: nat): (r: seq<(string, string)>)
    requires i <= |s|
    decreases |s| - i
  {
    if i == |s| then []
    else
      match OptAt(s, i)
      case Some(g) => [(g.0, g.1)] + FindAllOpts(s, g.2)
      case None => FindAllOpts(s, i + 1)
  }

  /** What the number scan matches is a value text. */
  lemma NumberShape(s: string, j: nat)
    requires j <= |s| && NumberEnd(s, j).Some?
    ensures IsFixedText(s[j..NumberEnd(s, j).value])
  {
    var e := NumberEnd(s, j).value;
    var v := s[j..e];
    var m := if s[j] == '-' then 1 else 0;
    assert v[0] == s[j];
    var d := Run(s, j + m, Digit);
    RunSlice(s, j, e, m, Digit);
    assert v[m + d] == s[j + m + d];
    RunSlice(s, j, e, m + d + 1, Digit);
  }

  /** A value text followed by a non-digit is what the number scan matches. */
  lemma NumberOf(s: string, j: nat, v: string)
    requires j + |v| <= |s| && s[j..j + |v|] == v
    requires IsFixedText(v)
    requires j + |v| == |s| || !IsDigit(s[j + |v|])
    ensures NumberEnd(s, j) == Some(j + |v|)
  {
    var m := SignLen(v);
    assert s[j] == v[0];
    var d := Run(v, m, Digit);
    RunAgree(s, v, j, m, Digit);
    assert s[j + m + d] == v[m + d];
    RunAgree(s, v, j, m + d + 1, Digit);
  }

  lemma {:induction false} ValueFromShape(s: string, j: nat)
    requires j <= |s| && ValueFrom(s, j).Some?
    ensures IsFixedText(s[ValueFrom(s, j).value.0..ValueFrom(s, j).value.1])
    decreases |s| - j
  {
    if j < |s| && IsSpace(s[j]) {
      ValueFromShape(s, j + 1);
    } else {
      NumberShape(s, j);
    }
  }

  lemma {:induction false} KeyTailShape(s: string, j: nat)
    requires j <= |s| && KeyTail(s, j).Some?
    ensures IsFixedText(s[KeyTail(s, j).value.0..KeyTail(s, j).value.1])
    decreases |s| - j
  {
    if s[j] == '=' {
      ValueFromShape(s, j + 1);
    } else {
      KeyTailShape(s, j + 1);
    }
  }

  /** A match of `r_opt` is a two-letter key with a value text. */
  lemma OptAtShape(s: string, i: nat)
    requires i <= |s| && OptAt(s, i).Some?
    ensures IsOptionKey(OptAt(s, i).value.0) && IsFixedText(OptAt(s, i).value.1)
  {
    KeyTailShape(s, i + 2);
  }

  /** Every pair is a two-letter key with a value text. */
  predicate OptionPairs(pairs: seq<(string, string)>)
  {
    pairs == [] || (IsOptionKey(pairs[0].0) && IsFixedText(pairs[0].1) && OptionPairs(pairs[1..]))
  }

  /** Every pair `findall` yields is a key and a value text. */
  lemma {:induction false} FindAllOptsShape(s: string, i: nat)
    requires i <= |s|
    ensures OptionPairs(FindAllOpts(s, i))
    decreases |s| - i
  {
    if i < |s| {
      match OptAt(s, i)
      case Some(g) =>
        OptAtShape(s, i);
        FindAllOptsShape(s, g.2);
        assert FindAllOpts(s, i)[1..] == FindAllOpts(s, g.2);
      case None => FindAllOptsShape(s, i + 1);
    }
  }

  /** The keys of a list of pairs. */
  function Keys(pairs: seq<(string, string)>): set<string>
  {
    if pairs == [] then {} else {pairs[0].0} + Keys(pairs[1..])
  }

  /** `dict(pairs)`: a later pair overwrites an earlier one with the same key. */
  function DictOf(pairs: seq<(string, string)>): (m: map<string, string>)
    ensures m.Keys == Keys(pairs)
  {
    if pairs == [] then map[]
    else
      var m := DictOf(pairs[1..]);
      if pairs[0].0 in m then m else m[pairs[0].0 := pairs[0].1]
  }

  /** The value a key maps to is the one of its last pair. */
  lemma {:induction false} DictOfLastWins(pairs: seq<(string, string)>, j: nat)
    requires j < |pairs|
    requires forall l :: j < l < |pairs| ==> pairs[l].0 != pairs[j].0
    ensures pairs[j].0 in DictOf(pairs) && DictOf(pairs)[pairs[j].0] == pairs[j].1
    decreases j
  {
    if j == 0 {
      KeysOf(pairs[1..], pairs[0].0);
    } else {
      assert pairs[1..][j - 1] == pairs[j];
      DictOfLastWins(pairs[1..], j - 1);
    }
  }

  /** A key is absent from the keys exactly when no pair has it. */
  lemma {:induction false} KeysOf(pairs: seq<(string, string)>, k: string)
    ensures k in Keys(pairs) <==> exists j :: 0 <= j < |pairs| && pairs[j].0 == k
  {
    if pairs != [] {
      KeysOf(pairs[1..], k);
      if k in Keys(pairs[1..]) {
        var j :| 0 <= j < |pairs| - 1 && pairs[1..][j].0 == k;
        assert pairs[j + 1].0 == k;
      }
      if exists j :: 0 <= j < |pairs| && pairs[j].0 == k {
        var j :| 0 <= j < |pairs| && pairs[j].0 == k;
        if j > 0 {
          assert pairs[1..][j - 1].0 == k;
        }
      }
    }
  }

  /** Every entry of the dictionary is a key with a value text. */
  lemma {:induction false} DictOfShape(pairs: seq<(string, string)>)
    requires OptionPairs(pairs)
    ensures forall k :: k in DictOf(pairs) ==> IsOptionKey(k) && IsFixedText(DictOf(pairs)[k])
  {
    if pairs != [] {
      DictOfShape(pairs[1..]);
    }
  }

  /**
   * `options` of `DPOP_OPtion` (`required` is `RE`) and of `AsOp_opt`
   * (`required` is `WA`): every two-letter key of the listing with its
   * numeric text, or the error embedding the buffer when no pair has the
   * required key.
   */
  function OptionsOf(buf: string, required: string, failure: string): (r: Result<map<string, string>>)
    ensures r.Ok? <==> required in Keys(FindAllOpts(buf, 0))
    ensures r.Err? ==> r.error == RuntimeError(failure + buf)
    ensures r.Ok? ==> r.value == DictOf(FindAllOpts(buf, 0))
  {
    var m := DictOf(FindAllOpts(buf, 0));
    if required in m then Ok(m) else Err(RuntimeError(failure + buf))
  }

  /** The options read hold two-letter keys with value texts only, so `get_option`'s `float` cannot fail. */
  lemma OptionsAreValueTexts(buf: string, required: string, failure: string)
    requires OptionsOf(buf, required, failure).Ok?
    ensures forall k :: k in OptionsOf(buf, required, failure).value ==>
      IsOptionKey(k) && IsFixedText(OptionsOf(buf, required, failure).value[k])
  {
    FindAllOptsShape(buf, 0);
    DictOfShape(FindAllOpts(buf, 0));
  }

  /** `key[:2].upper()`, the key `get_option` looks up. */
  function OptionKeyOf(name: string): (k: string)
    ensures |k| == if |name| < 2 then |name| else 2
    ensures forall i :: 0 <= i < |k| ==> k[i] == UpperChar(name[i])
  {
    Upper(Take(name, 2))
  }

  /**
   * `get_option(name)`: `float(options[name[:2].upper()])`, `KeyError` when
   * absent. The options hold value texts only, so `float` does not fail.
   */
  function GetOption(opts: map<string, string>, name: string): (r: Result<Decimal>)
    ensures r.Err? <==> OptionKeyOf(name) !in opts
    ensures r.Err? ==> r.error == KeyError(OptionKeyOf(name))
    ensures r.Ok? ==> r.value == FixedValue(opts[OptionKeyOf(name)])
  {
    var k := OptionKeyOf(name);
    if k in opts then Ok(FixedValue(opts[k])) else Err(KeyError(k))
  }

  lemma UpperCharTwice(c: char)
    ensures UpperChar(UpperChar(c)) == UpperChar(c)
  {
  }

  /**
   * Option names are read by their first two letters, in any case: a long name,
   * its upper-cased form and its two-letter prefix all read the same option.
   */
  lemma {:induction false} GetOptionByPrefix(opts: map<string, string>, name: string)
    ensures GetOption(opts, Upper(name)) == GetOption(opts, name)
    ensures GetOption(opts, Take(name, 2)) == GetOption(opts, name)
  {
    var k := OptionKeyOf(name);
    var ku := OptionKeyOf(Upper(name));
    forall i | 0 <= i < |k|
      ensures ku[i] == k[i]
    {
      UpperCharTwice(name[i]);
    }
    assert ku == k;
    var kt := OptionKeyOf(Take(name, 2));
    assert forall i :: 0 <= i < |kt| ==> Take(name, 2)[i] == name[i];
    assert kt == k;
  }

  /** A name the listing prints: two word characters, then no `=` and no line break. */
  predicate IsOptionName(name: string)
  {
    |name| >= 2 && IsWordChar(name[0]) && IsWordChar(name[1])
    && forall k :: 0 <= k < |name| ==> InClass(NotEqNewline, name[k])
  }

  /** Every entry can be printed as a listing line. */
  predicate Listable(entries: seq<(string, string)>)
  {
    entries == [] || (IsOptionName(entries[0].0) && IsFixedText(entries[0].1) && Listable(entries[1..]))
  }

  /** An options listing: one `name = value` line per entry. */
  function Listing(entries: seq<(string, string)>): string
  {
    if entries == [] then ""
    else entries[0].0 + (" = " + (entries[0].1 + ("\n" + Listing(entries[1..]))))
  }

  /** What a listing should read back as: each name's first two characters with its value. */
  function ListedPairs(entries: seq<(string, string)>): (r: seq<(string, string)>)
    ensures |r| == |entries|
    ensures forall j :: 0 <= j < |r| ==> r[j] == (Take(entries[j].0, 2), entries[j].1)
  {
    if entries == [] then []
    else
      var tail := ListedPairs(entries[1..]);
      assert forall j :: 1 <= j < |entries| ==> entries[1..][j - 1] == entries[j];
      [(Take(entries[0].0, 2), entries[0].1)] + tail
  }

  /** Spaces before a value are skipped. */
  lemma {:induction false} ValueFromSpaces(s: string, j: nat, e: nat)
    requires j <= e <= |s|
    requires forall k :: j <= k < e ==> IsSpace(s[k])
    ensures ValueFrom(s, j) == ValueFrom(s, e)
    decreases e - j
  {
    if j < e {
      ValueFromSpaces(s, j + 1, e);
    }
  }

  /** Up to the `=`, the characters after the key are skipped. */
  lemma {:induction false} KeyTailTo(s: string, j: nat, e: nat)
    requires j <= e < |s| && s[e] == '='
    requires forall k :: j <= k < e ==> InClass(NotEqNewline, s[k])
    ensures KeyTail(s, j) == ValueFrom(s, e + 1)
    decreases e - j
  {
    if j < e {
      KeyTailTo(s, j + 1, e);
    }
  }

  /** A value text starts with its sign or a digit, so not with a space. */
  lemma FixedTextStart(v: string)
    requires IsFixedText(v)
    ensures v != [] && (v[0] == '-' || IsDigit(v[0])) && !IsSpace(v[0])
  {
  }

  /** `r_opt` at `i` over a key, the text up to `=`, spaces and a value text. */
  lemma OptAtOf(s: string, i: nat, eq: nat, j: nat, v: string)
    requires i + 2 <= eq < j && j + |v| <= |s|
    requires i == 0 || !IsWordChar(s[i - 1])
    requires IsWordChar(s[i]) && IsWordChar(s[i + 1])
    requires forall k :: i + 2 <= k < eq ==> InClass(NotEqNewline, s[k])
    requires s[eq] == '='
    requires forall k :: eq < k < j ==> IsSpace(s[k])
    requires s[j..j + |v|] == v && IsFixedText(v)
    requires j + |v| == |s| || !IsDigit(s[j + |v|])
    ensures OptAt(s, i) == Some((s[i..i + 2], v, j + |v|))
  {
    KeyTailTo(s, i + 2, eq);
    ValueFromSpaces(s, eq + 1, j);
    FixedTextStart(v);
    assert s[j] == v[0];
    NumberOf(s, j, v);
  }

  /** Where the parts of a listing line `name = value` sit in a text holding it at `i`. */
  lemma LineParts(s: string, i: nat, name: string, value: string, rest: string)
    requires i <= |s| && s[i..] == name + (" = " + (value + ("\n" + rest)))
    requires |name| >= 2
    ensures i + |name| + 3 + |value| < |s|
    ensures s[i..i + 2] == name[..2]
    ensures forall k :: 0 <= k < |name| ==> s[i + k] == name[k]
    ensures s[i + |name|] == ' ' && s[i + |name| + 1] == '=' && s[i + |name| + 2] == ' '
    ensures s[i + |name| + 3..i + |name| + 3 + |value|] == value
    ensures s[i + |name| + 3 + |value|] == '\n'
    ensures s[i + |name| + 3 + |value| + 1..] == rest
  {
    var j := i + |name| + 3;
    var nl := j + |value|;
    var t := s[i..];
    DropPrefix(s, i, name, " = " + (value + ("\n" + rest)));
    DropPrefix(s, j, value, "\n" + rest);
    DropPrefix(s, nl, "\n", rest);
    assert s[i..i + 2] == t[..2];
    assert forall k :: 0 <= k < |name| ==> s[i + k] == t[k];
    assert s[i + |name|..][..3] == " = ";
    assert s[j..nl] == s[j..][..|value|];
    assert s[nl] == s[nl..][0];
  }

  /** The line of a listing at `i`: its pair is found and the next line starts after its line break. */
  lemma ListingLine(s: string, i: nat, name: string, value: string, rest: string)
    requires i <= |s| && s[i..] == name + (" = " + (value + ("\n" + rest)))
    requires i == 0 || !IsWordChar(s[i - 1])
    requires IsOptionName(name) && IsFixedText(value)
    ensures OptAt(s, i) == Some((name[..2], value, i + |name| + 3 + |value|))
    ensures i + |name| + 3 + |value| < |s| && s[i + |name| + 3 + |value|] == '\n'
    ensures s[i + |name| + 3 + |value| + 1..] == rest
  {
    var eq := i + |name| + 1;
    var j := i + |name| + 3;
    LineParts(s, i, name, value, rest);
    forall k | i + 2 <= k < eq
      ensures InClass(NotEqNewline, s[k])
    {
      if k < i + |name| {
        assert s[i + (k - i)] == name[k - i];
      }
    }
    OptAtOf(s, i, eq, j, value);
  }

  /** `findall` takes a match and resumes at its end. */
  lemma FindAllOptsMatch(s: string, i: nat, g: (string, string, nat))
    requires i < |s| && OptAt(s, i) == Some(g)
    ensures FindAllOpts(s, i) == [(g.0, g.1)] + FindAllOpts(s, g.2)
  {
  }

  /** No match starts at a line break. */
  lemma FindAllOptsBreak(s: string, i: nat)
    requires i < |s| && s[i] == '\n'
    ensures FindAllOpts(s, i) == FindAllOpts(s, i + 1)
  {
    assert OptAt(s, i).None?;
  }

  /**
   * An options listing after a non-word character reads back as the names'
   * two-letter keys with their values, in listing order.
   */
  lemma {:induction false} ListingFrom(s: string, i: nat, entries: seq<(string, string)>)
    requires i <= |s| && s[i..] == Listing(entries)
    requires i == 0 || !IsWordChar(s[i - 1])
    requires Listable(entries)
    ensures FindAllOpts(s, i) == ListedPairs(entries)
    decreases |entries|
  {
    if entries != [] {
      var name, value := entries[0].0, entries[0].1;
      var nl := i + |name| + 3 + |value|;
      ListingLine(s, i, name, value, Listing(entries[1..]));
      FindAllOptsMatch(s, i, (name[..2], value, nl));
      FindAllOptsBreak(s, nl);
      ListingFrom(s, nl + 1, entries[1..]);
    }
  }

  /** The options listing read from the start of a buffer. */
  lemma OptionListingReadsBack(entries: seq<(string, string)>)
    requires Listable(entries)
    ensures FindAllOpts(Listing(entries), 0) == ListedPairs(entries)
  {
    ListingFrom(Listing(entries), 0, entries);
  }

  // ------------------------------------------------------------------ PSF errors

  /** `[ ?*]`, the flag after a star's profile error. */
  predicate IsFlag(c: char)
  {
    c == ' ' || c == '?' || c == '*'
  }

  /** The texts the group `(\d+.\d+)` can capture: digits, or digits, one character, digits. */
  predicate IsErrText(t: string)
  {
    var d := Run(t, 0, Digit);
    d >= 1 && (d == |t| || (d + 1 < |t| && AllDigits(t[d + 1..])))
  }

  /**
   * `(\d+.\d+) [ ?*]` from `q`: where the group ends. The `.` matches any
   * character but a line break. When the digits after the character that
   * follows the first run are not followed by ` [ ?*]`, the engine backs the
   * `.` into the first run: the group is then that run, of three digits or
   * more.
   */
  function ErrGroupEnd(s: string, q: nat): (r: Option<nat>)
    requires q <= |s|
    ensures r.Some? ==> q < r.value && r.value + 2 <= |s| && s[r.value] == ' ' && IsFlag(s[r.value + 1])
  {
    var d := Run(s, q, Digit);
    var p := q + d;
    var f := if 0 < d && p < |s| && s[p] != '\n' then Run(s, p + 1, Digit) else 0;
    var e := p + 1 + f;
    if d == 0 then None
    else if f > 0 && e + 1 < |s| && s[e] == ' ' && IsFlag(s[e + 1]) then Some(e)
    else if d >= 3 && p + 1 < |s| && s[p] == ' ' && IsFlag(s[p + 1]) then Some(p)
    else None
  }

  /** ` +(\d+.\d+) [ ?*]` from `j`, the star's digits being `s[a..b]`: both groups and where the match ends. */
  function StarBlanks(s: string, a: nat, b: nat, j: nat): (r: Option<(string, string, nat)>)
    requires a <= b <= j <= |s|
    ensures r.Some? ==> j < r.value.2 <= |s|
    decreases |s| - j
  {
    if j < |s| && s[j] == ' ' then StarBlanks(s, a, b, j + 1)
    else if j == b then None
    else
      match ErrGroupEnd(s, j)
      case None => None
      case Some(e) => Some((s[a..b], s[j..e], e + 2))
  }

  /** `(\d+) +(\d+.\d+) [ ?*]` from `j`, the star's digits starting at `a`. */
  function StarDigits(s: string, a: nat, j: nat): (r: Option<(string, string, nat)>)
    requires a <= j <= |s|
    ensures r.Some? ==> j < r.value.2 <= |s|
    decreases |s| - j
  {
    if j < |s| && IsDigit(s[j]) then StarDigits(s, a, j + 1)
    else if j == a then None
    else StarBlanks(s, a, j, j)
  }

  /** `r_psf_errors` = ` (\d+) +(\d+.\d+) [ ?*]` matched at `i`: its two groups and where the match ends. */
  function PsfAt(s: string, i: nat): (r: Option<(string, string, nat)>)
    requires i <= |s|
    ensures r.Some? ==> i < r.value.2 <= |s|
  {
    if i == |s| || s[i] != ' ' then None else StarDigits(s, i + 1, i + 1)
  }

  /** `r_psf_errors.findall(s[i:])`: the (star, error) texts. */
  function FindAllPsf(s: string, i: nat): (r: seq<(string, string)>)
    requires i <= |s|
    decreases |s| - i
  {
    if i == |s| then []
    else
      match PsfAt(s, i)
      case Some(g) => [(g.0, g.1)] + FindAllPsf(s, g.2)
      case None => FindAllPsf(s, i + 1)
  }

  /** Every row is a star number in digits with an error text. */
  predicate ErrRows(rows: seq<(string, string)>)
  {
    rows == [] || (rows[0].0 != "" && AllDigits(rows[0].0) && IsErrText(rows[0].1) && ErrRows(rows[1..]))
  }

  /** What the group `(\d+.\d+)` captures is an error text. */
  lemma ErrGroupShape(s: string, q: nat)
    requires q <= |s| && ErrGroupEnd(s, q).Some?
    ensures IsErrText(s[q..ErrGroupEnd(s, q).value])
  {
    var e := ErrGroupEnd(s, q).value;
    var t := s[q..e];
    var d := Run(s, q, Digit);
    ErrGroupEndCases(s, q);
    RunSlice(s, q, e, 0, Digit);
    assert Run(t, 0, Digit) == d;
    if e > q + d {
      var j := q + d + 1;
      assert t[d + 1..] == s[j..j + Run(s, j, Digit)];
      RunDigits(s, j);
    }
  }

  /** The group ends after the first run of digits, or after the second when a character and digits follow. */
  lemma ErrGroupEndCases(s: string, q: nat)
    requires q <= |s| && ErrGroupEnd(s, q).Some?
    ensures var d := Run(s, q, Digit); var e := ErrGroupEnd(s, q).value;
      d > 0 && q + d < |s| &&
      (e == q + d || (q + d + 1 <= |s| && Run(s, q + d + 1, Digit) > 0 && e == q + d + 1 + Run(s, q + d + 1, Digit)))
  {
  }

  lemma {:induction false} StarBlanksShape(s: string, a: nat, b: nat, j: nat)
    requires a <= b <= j <= |s| && StarBlanks(s, a, b, j).Some?
    ensures StarBlanks(s, a, b, j).value.0 == s[a..b] && IsErrText(StarBlanks(s, a, b, j).value.1)
    decreases |s| - j
  {
    if j < |s| && s[j] == ' ' {
      StarBlanksShape(s, a, b, j + 1);
    } else {
      ErrGroupShape(s, j);
    }
  }

  lemma {:induction false} StarDigitsShape(s: string, a: nat, j: nat)
    requires a <= j <= |s| && StarDigits(s, a, j).Some?
    requires forall m :: a <= m < j ==> IsDigit(s[m])
    ensures StarDigits(s, a, j).value.0 != "" && AllDigits(StarDigits(s, a, j).value.0)
    ensures IsErrText(StarDigits(s, a, j).value.1)
    decreases |s| - j
  {
    if j < |s| && IsDigit(s[j]) {
      StarDigitsShape(s, a, j + 1);
    } else {
      StarBlanksShape(s, a, j, j);
      var t := s[a..j];
      assert forall m :: 0 <= m < |t| ==> t[m] == s[a + m];
    }
  }

  /** A match of `r_psf_errors` is a star number with an error text. */
  lemma PsfAtShape(s: string, i: nat)
    requires i <= |s| && PsfAt(s, i).Some?
    ensures PsfAt(s, i).value.0 != "" && AllDigits(PsfAt(s, i).value.0) && IsErrText(PsfAt(s, i).value.1)
  {
    StarDigitsShape(s, i + 1, i + 1);
  }

  /** Every row `findall` yields is a star number with an error text. */
  lemma {:induction false} FindAllPsfShape(s: string, i: nat)
    requires i <= |s|
    ensures ErrRows(FindAllPsf(s, i))
    decreases |s| - i
  {
    if i < |s| {
      match PsfAt(s, i)
      case Some(g) =>
        PsfAtShape(s, i);
        FindAllPsfShape(s, g.2);
        assert FindAllPsf(s, i)[1..] == FindAllPsf(s, g.2);
      case None => FindAllPsfShape(s, i + 1);
    }
  }

  /** The characters `float` accepts between two digit runs: a decimal point, an exponent mark, an underscore. */
  predicate IsFloatSeparator(c: char)
  {
    c == '.' || c == 'e' || c == 'E' || c == '_'
  }

  /**
   * `float(t)` on a captured error text: digits alone, or the digits around a
   * decimal point, an exponent mark or an underscore. Any other separator is
   * refused with `ValueError`.
   */
  function ErrValue(t: string): (r: Result<Decimal>)
    requires IsErrText(t)
    ensures r.Err? <==> Run(t, 0, Digit) < |t| && !IsFloatSeparator(t[Run(t, 0, Digit)])
    ensures r.Err? ==> r.error.ValueError?
  {
    var d := Run(t, 0, Digit);
    if d == |t| then Ok(Decimal(DecimalValue(t), 0))
    else
      var whole := t[..d];
      var rest := t[d + 1..];
      var c := t[d];
      if c == '.' then Ok(Decimal(DecimalValue(whole + rest), -|rest|))
      else if c == 'e' || c == 'E' then Ok(Decimal(DecimalValue(whole), DecimalValue(rest)))
      else if c == '_' then Ok(Decimal(DecimalValue(whole + rest), 0))
      else Err(ValueError("could not convert string to float: '" + t + "'"))
  }

  /** `[(int(star), float(err)) for star, err in rows]`: the first refused text raises. */
  function ErrorRows(rows: seq<(string, string)>): (r: Result<seq<(nat, Decimal)>>)
    requires ErrRows(rows)
    ensures r.Ok? <==> forall j :: 0 <= j < |rows| ==> IsErrText(rows[j].1) && ErrValue(rows[j].1).Ok?
    ensures r.Err? ==> r.error.ValueError?
    ensures r.Ok? ==> |r.value| == |rows|
    ensures r.Ok? ==> forall j :: 0 <= j < |rows| ==>
      IsErrText(rows[j].1) && r.value[j] == (DecimalValue(rows[j].0), ErrValue(rows[j].1).value)
  {
    if rows == [] then Ok([])
    else
      assert forall j :: 1 <= j < |rows| ==> rows[1..][j - 1] == rows[j];
      match ErrValue(rows[0].1)
      case Err(e) => Err(e)
      case Ok(v) =>
        match ErrorRows(rows[1..])
        case Err(e) => Err(e)
        case Ok(tail) => Ok([(DecimalValue(rows[0].0), v)] + tail)
  }

  /** `DpOp_PSf.errors`: one (star, error) pair per error row of the buffer, in buffer order. */
  function PsfErrors(buf: string): (r: Result<seq<(nat, Decimal)>>)
  {
    FindAllPsfShape(buf, 0);
    ErrorRows(FindAllPsf(buf, 0))
  }

  /** The errors read are the error rows found, converted one by one, or the first conversion's failure. */
  lemma PsfErrorsRows(buf: string)
    ensures ErrRows(FindAllPsf(buf, 0))
    ensures PsfErrors(buf).Ok? ==> |PsfErrors(buf).value| == |FindAllPsf(buf, 0)|
    ensures PsfErrors(buf).Ok? ==> forall j :: 0 <= j < |FindAllPsf(buf, 0)| ==>
      IsErrText(FindAllPsf(buf, 0)[j].1)
      && PsfErrors(buf).value[j] == (DecimalValue(FindAllPsf(buf, 0)[j].0), ErrValue(FindAllPsf(buf, 0)[j].1).value)
    ensures PsfErrors(buf).Err? ==> PsfErrors(buf).error.ValueError?
  {
    FindAllPsfShape(buf, 0);
  }

  /** One row of the PSF star table, ` star  whole.frac flag`, followed by `rest`. */
  function PsfRow(star: string, whole: string, frac: string, flag: char, rest: string): string
  {
    " " + (star + ("  " + (whole + ("." + (frac + (" " + ([flag] + rest)))))))
  }

  /** A star table: one row per (star, whole part, fraction, flag). */
  function PsfRows(rows: seq<(string, string, string, char)>): string
  {
    if rows == [] then "" else PsfRow(rows[0].0, rows[0].1, rows[0].2, rows[0].3, PsfRows(rows[1..]))
  }

  predicate IsNumeral(t: string)
  {
    t != "" && AllDigits(t)
  }

  /** Every row has digits for its star, whole part and fraction, and a flag. */
  predicate RowsOk(rows: seq<(string, string, string, char)>)
  {
    rows == []
    || (IsNumeral(rows[0].0) && IsNumeral(rows[0].1) && IsNumeral(rows[0].2) && IsFlag(rows[0].3)
        && RowsOk(rows[1..]))
  }

  /** The (star, error) texts a table of rows prints. */
  function RowTexts(rows: seq<(string, string, string, char)>): (r: seq<(string, string)>)
    ensures |r| == |rows|
  {
    if rows == [] then [] else [(rows[0].0, rows[0].1 + ("." + rows[0].2))] + RowTexts(rows[1..])
  }

  /** The (star, error) values a table of rows should read back as: the error is whole.frac. */
  function RowValues(rows: seq<(string, string, string, char)>): (r: seq<(nat, Decimal)>)
    ensures |r| == |rows|
  {
    if rows == [] then []
    else
      var frac := rows[0].2;
      [(DecimalValue(rows[0].0), Decimal(DecimalValue(rows[0].1 + frac), -|frac|))] + RowValues(rows[1..])
  }

  /** Where the parts of a printed row's error sit in a text holding it at `q`. */
  lemma {:induction false} ErrParts(s: string, q: nat, e: nat, W: string, frac: string, flag: char, rest: string)
    requires q <= |s| && s[q..] == W + ("." + (frac + (" " + ([flag] + rest))))
    requires e == q + |W| + 1 + |frac|
    ensures e + 2 <= |s|
    ensures s[q..q + |W|] == W && s[q + |W|] == '.'
    ensures s[q + |W| + 1..e] == frac && s[e] == ' ' && s[e + 1] == flag
    ensures s[q..e] == W + ("." + frac)
    ensures s[e + 2..] == rest
  {
    var tail := " " + ([flag] + rest);
    var wf := W + ("." + frac);
    assert s[q..] == wf + tail by {
      ConcatAssoc4(W, ".", frac, tail);
    }
    assert s[q..e] == wf && s[e..] == tail by {
      TakePrefix(s, q, wf, tail);
    }
    assert s[q..q + |W|] == W && s[q + |W|..e] == "." + frac by {
      TakePrefix(s[q..e], 0, W, "." + frac);
      assert s[q..e][0..|W|] == s[q..q + |W|];
      assert s[q..e][|W|..] == s[q + |W|..e];
    }
    assert s[q + |W|] == '.' && s[q + |W| + 1..e] == frac by {
      TakePrefix(s[q + |W|..e], 0, ".", frac);
      assert s[q + |W|..e][1..] == s[q + |W| + 1..e];
    }
    assert s[e] == ' ' && s[e + 1] == flag && s[e + 2..] == rest by {
      TakePrefix(s, e, " ", [flag] + rest);
      TakePrefix(s, e + 1, [flag], rest);
    }
  }

  /** Where the parts of a printed row sit in a text holding it at `i`. */
  lemma RowParts(s: string, i: nat, q: nat, S: string, tail: string)
    requires i <= |s| && s[i..] == " " + (S + ("  " + tail))
    requires q == i + 3 + |S|
    ensures q <= |s|
    ensures s[i] == ' ' && s[i + 1..i + 1 + |S|] == S
    ensures s[i + 1 + |S|] == ' ' && s[i + 2 + |S|] == ' '
    ensures s[q..] == tail
  {
    DropPrefix(s, i, " ", S + ("  " + tail));
    DropPrefix(s, i + 1, S, "  " + tail);
    DropPrefix(s, i + 1 + |S|, "  ", tail);
    assert s[i] == s[i..][0];
    assert s[i + 1..i + 1 + |S|] == s[i + 1..][..|S|];
    assert s[i + 1 + |S|] == s[i + 1 + |S|..][0];
    assert s[i + 2 + |S|] == s[i + 1 + |S|..][1];
  }

  /** The error group of a printed row is `whole.frac`. */
  lemma ErrGroupOf(s: string, q: nat, e: nat, W: string, frac: string)
    requires e == q + |W| + 1 + |frac| && e + 2 <= |s|
    requires IsNumeral(W) && IsNumeral(frac)
    requires s[q..q + |W|] == W && s[q + |W|] == '.'
    requires s[q + |W| + 1..e] == frac && s[e] == ' ' && IsFlag(s[e + 1])
    ensures ErrGroupEnd(s, q) == Some(e)
  {
    RunOfText(s, q, W, Digit);
    RunOfText(s, q + |W| + 1, frac, Digit);
  }

  lemma {:induction false} StarBlanksTo(s: string, a: nat, b: nat, j: nat, q: nat)
    requires a <= b <= j <= q <= |s|
    requires forall m :: j <= m < q ==> s[m] == ' '
    requires q == |s| || s[q] != ' '
    ensures StarBlanks(s, a, b, j) == StarBlanks(s, a, b, q)
    decreases q - j
  {
    if j < q {
      StarBlanksTo(s, a, b, j + 1, q);
    }
  }

  lemma {:induction false} StarDigitsTo(s: string, a: nat, j: nat, b: nat)
    requires a <= j <= b <= |s|
    requires forall m :: j <= m < b ==> IsDigit(s[m])
    requires b == |s| || !IsDigit(s[b])
    ensures StarDigits(s, a, j) == (if b == a then None else StarBlanks(s, a, b, b))
    decreases b - j
  {
    if j < b {
      StarDigitsTo(s, a, j + 1, b);
    }
  }

  /** A printed row is matched whole, with the star's digits and `whole.frac` as its groups. */
  lemma PsfAtOf(s: string, i: nat, q: nat, e: nat, S: string, W: string, frac: string)
    requires q == i + 3 + |S| && e == q + |W| + 1 + |frac| && e + 2 <= |s|
    requires IsNumeral(S) && IsNumeral(W) && IsNumeral(frac)
    requires s[i] == ' ' && s[i + 1..i + 1 + |S|] == S
    requires s[i + 1 + |S|] == ' ' && s[i + 2 + |S|] == ' '
    requires s[q..q + |W|] == W && s[q + |W|] == '.'
    requires s[q + |W| + 1..e] == frac && s[e] == ' ' && IsFlag(s[e + 1])
    requires s[q..e] == W + ("." + frac)
    ensures PsfAt(s, i) == Some((S, W + ("." + frac), e + 2))
  {
    var b := i + 1 + |S|;
    assert forall m :: i + 1 <= m < b ==> s[m] == S[m - i - 1] by {
      assert forall m :: i + 1 <= m < b ==> s[i + 1..b][m - i - 1] == s[m];
    }
    assert s[q] == W[0] by {
      assert s[q..q + |W|][0] == s[q];
    }
    StarDigitsTo(s, i + 1, i + 1, b);
    StarBlanksTo(s, i + 1, b, b, q);
    ErrGroupOf(s, q, e, W, frac);
  }

  /** Length of a printed row without what follows it. */
  function RowLen(star: string, whole: string, frac: string): nat
  {
    |star| + |whole| + |frac| + 6
  }

  /** One printed row at `i` is the next match, and the search goes on after its flag. */
  lemma PsfRowStep(s: string, i: nat, star: string, whole: string, frac: string, flag: char, rest: string)
    requires i <= |s| && s[i..] == PsfRow(star, whole, frac, flag, rest)
    requires IsNumeral(star) && IsNumeral(whole) && IsNumeral(frac) && IsFlag(flag)
    ensures i + RowLen(star, whole, frac) <= |s|
    ensures PsfAt(s, i) == Some((star, whole + ("." + frac), i + RowLen(star, whole, frac)))
    ensures s[i + RowLen(star, whole, frac)..] == rest
  {
    var q := i + 3 + |star|;
    var e := q + |whole| + 1 + |frac|;
    RowParts(s, i, q, star, whole + ("." + (frac + (" " + ([flag] + rest)))));
    ErrParts(s, q, e, whole, frac, flag, rest);
    PsfAtOf(s, i, q, e, star, whole, frac);
  }

  /** A table of rows written at `i` reads back as the rows' texts. */
  lemma {:induction false} PsfRowsFrom(s: string, i: nat, rows: seq<(string, string, string, char)>)
    requires i <= |s| && s[i..] == PsfRows(rows)
    requires RowsOk(rows)
    ensures FindAllPsf(s, i) == RowTexts(rows)
    decreases |rows|
  {
    if rows != [] {
      var r := rows[0];
      var n := i + RowLen(r.0, r.1, r.2);
      PsfRowStep(s, i, r.0, r.1, r.2, r.3, PsfRows(rows[1..]));
      assert FindAllPsf(s, i) == [(r.0, r.1 + ("." + r.2))] + FindAllPsf(s, n);
      PsfRowsFrom(s, n, rows[1..]);
      assert RowTexts(rows) == [(r.0, r.1 + ("." + r.2))] + RowTexts(rows[1..]);
    }
  }

  /** The error text `whole.frac` is read as the digits of both parts, scaled by the fraction's length. */
  lemma FixedErrValue(whole: string, frac: string)
    requires IsNumeral(whole) && IsNumeral(frac)
    ensures IsErrText(whole + ("." + frac))
    ensures ErrValue(whole + ("." + frac)) == Ok(Decimal(DecimalValue(whole + frac), -|frac|))
  {
    var u := "." + frac;
    var t := whole + u;
    RunWhole(whole, u, Digit);
    assert Run(t, 0, Digit) == |whole|;
    assert t[|whole|] == '.' by {
      assert t[|whole|] == u[0];
    }
    assert t[..|whole|] == whole;
    assert t[|whole| + 1..] == frac by {
      assert t[|whole| + 1..] == u[1..];
    }
    assert AllDigits(t[|whole| + 1..]);
  }

  lemma {:induction false} RowTextValues(rows: seq<(string, string, string, char)>)
    requires RowsOk(rows)
    ensures ErrRows(RowTexts(rows))
    ensures ErrorRows(RowTexts(rows)) == Ok(RowValues(rows))
    decreases |rows|
  {
    RowTextsErr(rows);
    if rows != [] {
      var t := RowTexts(rows);
      var v := Decimal(DecimalValue(rows[0].1 + rows[0].2), -|rows[0].2|);
      FixedErrValue(rows[0].1, rows[0].2);
      assert t[1..] == RowTexts(rows[1..]);
      assert ErrValue(t[0].1) == Ok(v);
      RowTextValues(rows[1..]);
      assert ErrorRows(t) == Ok([(DecimalValue(t[0].0), v)] + RowValues(rows[1..]));
    }
  }

  /** The texts a table of rows prints are error rows. */
  lemma {:induction false} RowTextsErr(rows: seq<(string, string, string, char)>)
    requires RowsOk(rows)
    ensures ErrRows(RowTexts(rows))
    decreases |rows|
  {
    if rows != [] {
      FixedErrValue(rows[0].1, rows[0].2);
      RowTextsErr(rows[1..]);
      assert RowTexts(rows)[1..] == RowTexts(rows[1..]);
    }
  }

  /** A PSF star table written row by row reads back as its stars and errors, in order. */
  lemma PsfErrorsReadBack(rows: seq<(string, string, string, char)>)
    requires RowsOk(rows)
    ensures PsfErrors(PsfRows(rows)) == Ok(RowValues(rows))
  {
    PsfRowsFrom(PsfRows(rows), 0, rows);
    RowTextValues(rows);
  }

  // ------------------------------------------------------------- PSF chi, hwhm_xy

  const PsfHeading := "Chi    Parameters"
  const PsfFailure := "daophot PSF output doesnt match regexp r_psf: error (or regexp is wrong). Output buffer:\n "

  /**
   * The last ` +(-?\d+\.\d*)` of `r_psf`, the y half-width, from `j`; `blanks`
   * tells whether a blank was already seen, and chi and the x half-width were
   * matched at `a..b` and `c..d`: the three groups.
   */
  function HwhmYFrom(s: string, j: nat, blanks: bool, a: nat, b: nat, c: nat, d: nat): (r: Option<(string, string, string)>)
    requires a <= b <= c <= d <= j <= |s|
    decreases |s| - j
  {
    if j < |s| && s[j] == ' ' then HwhmYFrom(s, j + 1, true, a, b, c, d)
    else if !blanks then None
    else
      match NumberEnd(s, j)
      case None => None
      case Some(e) => Some((s[a..b], s[c..d], s[j..e]))
  }

  /** The second ` +(-?\d+\.\d*)` of `r_psf`, the x half-width, from `j`, chi matched at `a..b`. */
  function HwhmXFrom(s: string, j: nat, blanks: bool, a: nat, b: nat): (r: Option<(string, string, string)>)
    requires a <= b <= j <= |s|
    decreases |s| - j
  {
    if j < |s| && s[j] == ' ' then HwhmXFrom(s, j + 1, true, a, b)
    else if !blanks then None
    else
      match NumberEnd(s, j)
      case None => None
      case Some(e) => HwhmYFrom(s, e, false, a, b, j, e)
  }

  /** The first ` +(-?\d+\.\d*)` of `r_psf`, chi, from `j`. */
  function ChiFrom(s: string, j: nat, blanks: bool): (r: Option<(string, string, string)>)
    requires j <= |s|
    decreases |s| - j
  {
    if j < |s| && s[j] == ' ' then ChiFrom(s, j + 1, true)
    else if !blanks then None
    else
      match NumberEnd(s, j)
      case None => None
      case Some(e) => HwhmXFrom(s, e, false, j, e)
  }

  /**
   * `r_psf` at `i`: the heading, three characters other than a line break, a
   * line break, `>*`, then three numbers each after blanks; the three groups.
   */
  function PsfDataAt(s: string, i: nat): (r: Option<(string, string, string)>)
    requires i <= |s|
  {
    if !OccursAt(s, PsfHeading, i) || i + 21 > |s|
      || s[i + 17] == '\n' || s[i + 18] == '\n' || s[i + 19] == '\n' || s[i + 20] != '\n' then None
    else ChiFrom(s, i + 21 + Run(s, i + 21, Prompt), false)
  }

  /** `r_psf.search(s, p)`: the leftmost matching position at or after `p`. */
  function SearchPsfData(s: string, p: nat): (r: Option<nat>)
    requires p <= |s|
    ensures r.Some? ==> p <= r.value <= |s| && PsfDataAt(s, r.value).Some?
    ensures r.Some? ==> forall q :: p <= q < r.value ==> PsfDataAt(s, q).None?
    ensures r.None? ==> forall q :: p <= q <= |s| ==> PsfDataAt(s, q).None?
    decreases |s| - p
  {
    if PsfDataAt(s, p).Some? then Some(p)
    else if p == |s| then None
    else SearchPsfData(s, p + 1)
  }

  /** `DpOp_PSf.data`: the groups of the leftmost match, or the error that embeds the buffer. */
  function PsfData(buf: string): (r: Result<(string, string, string)>)
    ensures r.Err? <==> forall q :: 0 <= q <= |buf| ==> PsfDataAt(buf, q).None?
    ensures r.Err? ==> r.error == RuntimeError(PsfFailure + buf)
    ensures r.Ok? ==>
      exists q :: 0 <= q <= |buf| && PsfDataAt(buf, q) == Some(r.value)
        && forall q' :: 0 <= q' < q ==> PsfDataAt(buf, q').None?
  {
    match SearchPsfData(buf, 0)
    case None => Err(RuntimeError(PsfFailure + buf))
    case Some(q) => Ok(PsfDataAt(buf, q).value)
  }

  /** `DpOp_PSf.chi`: `float` of the first group; it fails exactly when `data` does. */
  function Chi(buf: string): (r: Result<Decimal>)
    ensures r.Err? <==> PsfData(buf).Err?
    ensures r.Err? ==> r.error == PsfData(buf).error
    ensures r.Ok? ==> r.value == FixedValue(PsfData(buf).value.0)
  {
    match PsfData(buf)
    case Err(e) => Err(e)
    case Ok(g) => Ok(FixedValue(g.0))
  }

  /** `DpOp_PSf.hwhm_xy`: `float` of the second and third groups; it fails exactly when `data` does. */
  function HwhmXY(buf: string): (r: Result<(Decimal, Decimal)>)
    ensures r.Err? <==> PsfData(buf).Err?
    ensures r.Err? ==> r.error == PsfData(buf).error
    ensures r.Ok? ==> r.value == (FixedValue(PsfData(buf).value.1), FixedValue(PsfData(buf).value.2))
  {
    match PsfData(buf)
    case Err(e) => Err(e)
    case Ok(g) => Ok((FixedValue(g.1), FixedValue(g.2)))
  }

  lemma {:induction false} HwhmYShape(s: string, j: nat, blanks: bool, a: nat, b: nat, c: nat, d: nat)
    requires a <= b <= c <= d <= j <= |s| && HwhmYFrom(s, j, blanks, a, b, c, d).Some?
    requires IsFixedText(s[a..b]) && IsFixedText(s[c..d])
    ensures IsFixedText(HwhmYFrom(s, j, blanks, a, b, c, d).value.0)
    ensures IsFixedText(HwhmYFrom(s, j, blanks, a, b, c, d).value.1)
    ensures IsFixedText(HwhmYFrom(s, j, blanks, a, b, c, d).value.2)
    decreases |s| - j
  {
    if j < |s| && s[j] == ' ' {
      HwhmYShape(s, j + 1, true, a, b, c, d);
    } else {
      NumberShape(s, j);
    }
  }

  lemma {:induction false} HwhmXShape(s: string, j: nat, blanks: bool, a: nat, b: nat)
    requires a <= b <= j <= |s| && HwhmXFrom(s, j, blanks, a, b).Some?
    requires IsFixedText(s[a..b])
    ensures IsFixedText(HwhmXFrom(s, j, blanks, a, b).value.0)
    ensures IsFixedText(HwhmXFrom(s, j, blanks, a, b).value.1)
    ensures IsFixedText(HwhmXFrom(s, j, blanks, a, b).value.2)
    decreases |s| - j
  {
    if j < |s| && s[j] == ' ' {
      HwhmXShape(s, j + 1, true, a, b);
    } else {
      NumberShape(s, j);
      HwhmYShape(s, NumberEnd(s, j).value, false, a, b, j, NumberEnd(s, j).value);
    }
  }

  lemma {:induction false} ChiShape(s: string, j: nat, blanks: bool)
    requires j <= |s| && ChiFrom(s, j, blanks).Some?
    ensures IsFixedText(ChiFrom(s, j, blanks).value.0)
    ensures IsFixedText(ChiFrom(s, j, blanks).value.1)
    ensures IsFixedText(ChiFrom(s, j, blanks).value.2)
    decreases |s| - j
  {
    if j < |s| && s[j] == ' ' {
      ChiShape(s, j + 1, true);
    } else {
      NumberShape(s, j);
      HwhmXShape(s, NumberEnd(s, j).value, false, j, NumberEnd(s, j).value);
    }
  }

  /** The three groups of a match are value texts, so neither `chi` nor `hwhm_xy` can fail in `float`. */
  lemma PsfDataShape(s: string, i: nat)
    requires i <= |s| && PsfDataAt(s, i).Some?
    ensures IsFixedText(PsfDataAt(s, i).value.0)
    ensures IsFixedText(PsfDataAt(s, i).value.1)
    ensures IsFixedText(PsfDataAt(s, i).value.2)
  {
    ChiShape(s, i + 21 + Run(s, i + 21, Prompt), false);
  }

  /** `float` of a value text written as an optional sign, whole digits, `.` and fraction digits. */
  lemma FixedTextValue(neg: bool, whole: string, frac: string)
    requires IsNumeral(whole) && AllDigits(frac)
    ensures IsFixedText((if neg then "-" else "") + (whole + ("." + frac)))
    ensures FixedValue((if neg then "-" else "") + (whole + ("." + frac)))
      == Decimal(if neg then -(DecimalValue(whole + frac) as int) else DecimalValue(whole + frac), -|frac|)
  {
    var sg := if neg then "-" else "";
    var v := sg + (whole + ("." + frac));
    var m := |sg|;
    assert SignLen(v) == m by {
      assert v[0] == if neg then '-' else whole[0];
    }
    assert v[m..m + |whole|] == whole;
    assert v[m + |whole|] == '.';
    assert v[m + |whole| + 1..] == frac;
    FixedParts(v, m, whole, frac);
  }

  /** A value text cut into its sign, whole digits, `.` and fraction digits. */
  lemma FixedParts(v: string, m: nat, whole: string, frac: string)
    requires m == SignLen(v) && m + |whole| + 1 + |frac| == |v|
    requires v[m..m + |whole|] == whole && v[m + |whole|] == '.' && v[m + |whole| + 1..] == frac
    requires IsNumeral(whole) && AllDigits(frac)
    ensures IsFixedText(v)
    ensures FixedValue(v) == Decimal(if m == 1 then -(DecimalValue(whole + frac) as int) else DecimalValue(whole + frac), -|frac|)
  {
    RunOfText(v, m, whole, Digit);
    RunOfText(v, m + |whole| + 1, frac, Digit);
  }

  predicate AllBlanks(t: string)
  {
    t != "" && forall k :: 0 <= k < |t| ==> t[k] == ' '
  }

  predicate AllPrompts(t: string)
  {
    forall k :: 0 <= k < |t| ==> t[k] == '>'
  }

  /** Blanks before the y half-width are skipped. */
  lemma {:induction false} HwhmYTo(s: string, j: nat, e: nat, blanks: bool, a: nat, b: nat, c: nat, d: nat)
    requires a <= b <= c <= d <= j < e <= |s|
    requires forall k :: j <= k < e ==> s[k] == ' '
    ensures HwhmYFrom(s, j, blanks, a, b, c, d) == HwhmYFrom(s, e, true, a, b, c, d)
    decreases e - j
  {
    if j + 1 < e {
      HwhmYTo(s, j + 1, e, true, a, b, c, d);
    }
  }

  /** Blanks before the x half-width are skipped. */
  lemma {:induction false} HwhmXTo(s: string, j: nat, e: nat, blanks: bool, a: nat, b: nat)
    requires a <= b <= j < e <= |s|
    requires forall k :: j <= k < e ==> s[k] == ' '
    ensures HwhmXFrom(s, j, blanks, a, b) == HwhmXFrom(s, e, true, a, b)
    decreases e - j
  {
    if j + 1 < e {
      HwhmXTo(s, j + 1, e, true, a, b);
    }
  }

  /** Blanks before chi are skipped. */
  lemma {:induction false} ChiTo(s: string, j: nat, e: nat, blanks: bool)
    requires j < e <= |s|
    requires forall k :: j <= k < e ==> s[k] == ' '
    ensures ChiFrom(s, j, blanks) == ChiFrom(s, e, true)
    decreases e - j
  {
    if j + 1 < e {
      ChiTo(s, j + 1, e, true);
    }
  }

  /** A value text at `e` followed by a non-digit, seen from its first character: the number scan ends after it. */
  lemma NumberHere(s: string, e: nat, v: string)
    requires e + |v| <= |s| && s[e..e + |v|] == v && IsFixedText(v)
    requires e + |v| == |s| || !IsDigit(s[e + |v|])
    ensures e < |s| && s[e] != ' ' && NumberEnd(s, e) == Some(e + |v|)
  {
    FixedTextStart(v);
    assert s[e] == v[0];
    NumberOf(s, e, v);
  }

  /** Blanks from `j` to `e`, then the y half-width text `v`: all three groups are read. */
  lemma HwhmYOf(s: string, j: nat, e: nat, v: string, a: nat, b: nat, c: nat, d: nat)
    requires a <= b <= c <= d <= j < e && e + |v| <= |s|
    requires forall k :: j <= k < e ==> s[k] == ' '
    requires s[e..e + |v|] == v && IsFixedText(v)
    requires e + |v| == |s| || !IsDigit(s[e + |v|])
    ensures HwhmYFrom(s, j, false, a, b, c, d) == Some((s[a..b], s[c..d], v))
  {
    HwhmYTo(s, j, e, false, a, b, c, d);
    NumberHere(s, e, v);
  }

  /** Blanks from `j` to `e`, then the x half-width text `v`: the scan goes on after it. */
  lemma HwhmXOf(s: string, j: nat, e: nat, v: string, a: nat, b: nat)
    requires a <= b <= j < e && e + |v| <= |s|
    requires forall k :: j <= k < e ==> s[k] == ' '
    requires s[e..e + |v|] == v && IsFixedText(v)
    requires e + |v| == |s| || !IsDigit(s[e + |v|])
    ensures HwhmXFrom(s, j, false, a, b) == HwhmYFrom(s, e + |v|, false, a, b, e, e + |v|)
  {
    HwhmXTo(s, j, e, false, a, b);
    NumberHere(s, e, v);
  }

  /** Blanks from `j` to `e`, then the chi text `v`: the scan goes on after it. */
  lemma ChiOf(s: string, j: nat, e: nat, v: string)
    requires j < e && e + |v| <= |s|
    requires forall k :: j <= k < e ==> s[k] == ' '
    requires s[e..e + |v|] == v && IsFixedText(v)
    requires e + |v| == |s| || !IsDigit(s[e + |v|])
    ensures ChiFrom(s, j, false) == HwhmXFrom(s, e + |v|, false, e, e + |v|)
  {
    ChiTo(s, j, e, false);
    NumberHere(s, e, v);
  }

  /** Where blanks and a value text sit in a text holding them at `j`, the value starting at `e`. */
  lemma BlankNumberParts(s: string, j: nat, e: nat, sp: string, v: string, rest: string)
    requires j <= |s| && s[j..] == sp + (v + rest) && e == j + |sp|
    ensures e + |v| <= |s| && s[e + |v|..] == rest
    ensures forall k :: j <= k < e ==> s[k] == sp[k - j]
    ensures s[e..e + |v|] == v
    ensures e + |v| == |s| || s[e + |v|] == rest[0]
  {
    DropPrefix(s, j, sp, v + rest);
    DropPrefix(s, e, v, rest);
    assert forall k :: j <= k < e ==> s[j..][k - j] == s[k];
    assert s[e..e + |v|] == s[e..][..|v|];
    if e + |v| < |s| {
      assert s[e + |v|] == s[e + |v|..][0];
    }
  }

  /** The heading, its three characters, its line break and the prompts at `i`: the numbers are scanned after the prompts. */
  lemma PsfHeadText(s: string, i: nat, dots: string, prompts: string, rest: string)
    requires i <= |s| && s[i..] == PsfHeading + (dots + ("\n" + (prompts + rest)))
    requires |dots| == 3 && '\n' !in dots && AllPrompts(prompts)
    requires rest != "" && rest[0] == ' '
    ensures i + 21 + |prompts| <= |s| && s[i + 21 + |prompts|..] == rest
    ensures PsfDataAt(s, i) == ChiFrom(s, i + 21 + |prompts|, false)
  {
    var t := s[i..];
    DropPrefix(s, i, PsfHeading, dots + ("\n" + (prompts + rest)));
    DropPrefix(s, i + 17, dots, "\n" + (prompts + rest));
    DropPrefix(s, i + 20, "\n", prompts + rest);
    DropPrefix(s, i + 21, prompts, rest);
    assert s[i..i + 17] == t[..17];
    assert s[i + 17] == dots[0] && s[i + 18] == dots[1] && s[i + 19] == dots[2];
    assert s[i + 20] == s[i + 20..][0];
    assert s[i + 21..i + 21 + |prompts|] == s[i + 21..][..|prompts|];
    assert s[i + 21 + |prompts|] == rest[0] by {
      assert s[i + 21 + |prompts|] == s[i + 21 + |prompts|..][0];
    }
    RunOfText(s, i + 21, prompts, Prompt);
  }

  /** The y half-width after blanks, as the scan from `j` reads it. */
  lemma HwhmYFromText(s: string, j: nat, a: nat, b: nat, c: nat, d: nat, s3: string, z: string, post: string)
    requires a <= b <= c <= d <= j <= |s| && s[j..] == s3 + (z + post)
    requires AllBlanks(s3) && IsFixedText(z)
    requires post == "" || !IsDigit(post[0])
    ensures HwhmYFrom(s, j, false, a, b, c, d) == Some((s[a..b], s[c..d], z))
  {
    var z0 := j + |s3|;
    BlankNumberParts(s, j, z0, s3, z, post);
    HwhmYOf(s, j, z0, z, a, b, c, d);
  }

  /** The x and y half-widths after blanks, as the scan from `j` reads them. */
  lemma HwhmXFromText(s: string, j: nat, a: nat, b: nat, s2: string, y: string, s3: string, z: string, post: string)
    requires a <= b <= j <= |s| && s[j..] == s2 + (y + (s3 + (z + post)))
    requires AllBlanks(s2) && AllBlanks(s3) && IsFixedText(y) && IsFixedText(z)
    requires post == "" || !IsDigit(post[0])
    ensures HwhmXFrom(s, j, false, a, b) == Some((s[a..b], y, z))
  {
    var y0 := j + |s2|;
    var ye := y0 + |y|;
    BlankNumberParts(s, j, y0, s2, y, s3 + (z + post));
    HwhmXOf(s, j, y0, y, a, b);
    HwhmYFromText(s, ye, a, b, y0, ye, s3, z, post);
    assert s[y0..ye] == y;
  }

  /** The three numbers of the fit, each after blanks, as the scan from `j` reads them. */
  lemma ChiFromText(s: string, j: nat, s1: string, x: string, s2: string, y: string, s3: string, z: string, post: string)
    requires j <= |s| && s[j..] == s1 + (x + (s2 + (y + (s3 + (z + post)))))
    requires AllBlanks(s1) && AllBlanks(s2) && AllBlanks(s3)
    requires IsFixedText(x) && IsFixedText(y) && IsFixedText(z)
    requires post == "" || !IsDigit(post[0])
    ensures ChiFrom(s, j, false) == Some((x, y, z))
  {
    var x0 := j + |s1|;
    BlankNumberParts(s, j, x0, s1, x, s2 + (y + (s3 + (z + post))));
    FixedTextStart(y);
    ChiOf(s, j, x0, x);
    var xe := x0 + |x|;
    HwhmXFromText(s, xe, x0, xe, s2, y, s3, z, post);
  }

  /** The text `PSf` prints for its fit: heading, three characters, prompts, then chi and the two half-widths. */
  function PsfFitText(dots: string, prompts: string, s1: string, x: string, s2: string, y: string, s3: string, z: string, post: string): string
  {
    PsfHeading + (dots + ("\n" + (prompts + (s1 + (x + (s2 + (y + (s3 + (z + post)))))))))
  }

  /** Where the fit text sits, `r_psf` matches with its three numbers. */
  lemma PsfDataAtText(s: string, i: nat, dots: string, prompts: string, s1: string, x: string, s2: string, y: string, s3: string, z: string, post: string)
    requires i <= |s| && s[i..] == PsfFitText(dots, prompts, s1, x, s2, y, s3, z, post)
    requires |dots| == 3 && '\n' !in dots && AllPrompts(prompts)
    requires AllBlanks(s1) && AllBlanks(s2) && AllBlanks(s3)
    requires IsFixedText(x) && IsFixedText(y) && IsFixedText(z)
    requires post == "" || !IsDigit(post[0])
    ensures PsfDataAt(s, i) == Some((x, y, z))
  {
    var nums := s1 + (x + (s2 + (y + (s3 + (z + post)))));
    assert s[i..] == PsfHeading + (dots + ("\n" + (prompts + nums)));
    assert nums[0] == s1[0] == ' ';
    PsfHeadText(s, i, dots, prompts, nums);
    ChiFromText(s, i + 21 + |prompts|, s1, x, s2, y, s3, z, post);
  }

  /** The data read is the one of the leftmost match. */
  lemma PsfDataFirst(s: string, i: nat, g: (string, string, string))
    requires i <= |s| && PsfDataAt(s, i) == Some(g)
    requires forall q :: 0 <= q < i ==> PsfDataAt(s, q).None?
    ensures PsfData(s) == Ok(g)
  {
    var r := SearchPsfData(s, 0);
    assert r.Some?;
    assert r.value == i;
  }

  /** No match starts before the first heading. */
  lemma NoPsfDataBeforeHeading(pre: string, rest: string)
    requires forall j :: 0 <= j < |pre| ==> !OccursAt(pre + PsfHeading, PsfHeading, j)
    ensures forall q :: 0 <= q < |pre| ==> PsfDataAt(pre + (PsfHeading + rest), q).None?
  {
    var H := PsfHeading;
    var buf := pre + (H + rest);
    assert buf[..|pre| + 17] == pre + H;
    forall q | 0 <= q < |pre|
      ensures PsfDataAt(buf, q).None?
    {
      if OccursAt(buf, H, q) {
        assert buf[q..q + 17] == (pre + H)[q..q + 17];
        assert OccursAt(pre + H, H, q);
      }
    }
  }

  /**
   * `chi` and `hwhm_xy` read back the numbers printed after the first
   * heading, as the exact decimals their texts denote.
   */
  lemma PsfFitReadsBack(pre: string, dots: string, prompts: string, s1: string, x: string, s2: string, y: string, s3: string, z: string, post: string)
    requires forall j :: 0 <= j < |pre| ==> !OccursAt(pre + PsfHeading, PsfHeading, j)
    requires |dots| == 3 && '\n' !in dots && AllPrompts(prompts)
    requires AllBlanks(s1) && AllBlanks(s2) && AllBlanks(s3)
    requires IsFixedText(x) && IsFixedText(y) && IsFixedText(z)
    requires post == "" || !IsDigit(post[0])
    ensures Chi(pre + PsfFitText(dots, prompts, s1, x, s2, y, s3, z, post)) == Ok(FixedValue(x))
    ensures HwhmXY(pre + PsfFitText(dots, prompts, s1, x, s2, y, s3, z, post)) == Ok((FixedValue(y), FixedValue(z)))
  {
    var rest := dots + ("\n" + (prompts + (s1 + (x + (s2 + (y + (s3 + (z + post))))))));
    var buf := pre + (PsfHeading + rest);
    assert buf[|pre|..] == PsfHeading + rest;
    PsfDataAtText(buf, |pre|, dots, prompts, s1, x, s2, y, s3, z, post);
    NoPsfDataBeforeHeading(pre, rest);
    PsfDataFirst(buf, |pre|, (x, y, z));
  }

  // ------------------------------------------------------------------- stars_no

  /** `(\d+ +){n}` from `i`: where the blanks of the `n`-th field end. */
  function Fields(s: string, i: nat, n: nat): (r: Option<nat>)
    requires i <= |s|
    ensures r.Some? ==> i <= r.value <= |s|
    decreases n
  {
    if n == 0 then Some(i)
    else
      var a := Run(s, i, Digit);
      var b := Run(s, i + a, Blank);
      if a == 0 || b == 0 then None else Fields(s, i + a + b, n - 1)
  }

  /** `r_alls` = `(\d+) +(\d+) +(\d+) +(\d+) *\n` matched at `i`: its groups 3 and 4. */
  function AllsAt(s: string, i: nat): (r: Option<(string, string)>)
    requires i <= |s|
  {
    match Fields(s, i, 2)
    case None => None
    case Some(p) =>
      var c := Run(s, p, Digit);
      match Fields(s, p, 1)
      case None => None
      case Some(q) =>
        var d := Run(s, q, Digit);
        var w := Run(s, q + d, Blank);
        if d == 0 || q + d + w == |s| || s[q + d + w] != '\n' then None
        else Some((s[p..p + c], s[q..q + d]))
  }

  /** `r_alls.search(s, p)`: the leftmost matching position at or after `p`. */
  function SearchAlls(s: string, p: nat): (r: Option<nat>)
    requires p <= |s|
    ensures r.Some? ==> p <= r.value <= |s| && AllsAt(s, r.value).Some?
    ensures r.Some? ==> forall q :: p <= q < r.value ==> AllsAt(s, q).None?
    ensures r.None? ==> forall q :: p <= q <= |s| ==> AllsAt(s, q).None?
    decreases |s| - p
  {
    if AllsAt(s, p).Some? then Some(p)
    else if p == |s| then None
    else SearchAlls(s, p + 1)
  }

  const NoMatch := "'NoneType' object has no attribute 'group'"

  /**
   * `AsOp_result.stars_no`: the disappeared and converged counts, as text, of
   * the first summary line; without one, `match.group` fails on `None`.
   */
  function StarsNo(buf: string): (r: Result<(string, string)>)
    ensures r.Err? <==> forall q :: 0 <= q <= |buf| ==> AllsAt(buf, q).None?
    ensures r.Err? ==> r.error == AttributeError(NoMatch)
    ensures r.Ok? ==>
      exists q :: 0 <= q <= |buf| && AllsAt(buf, q) == Some(r.value)
        && forall q' :: 0 <= q' < q ==> AllsAt(buf, q').None?
  {
    match SearchAlls(buf, 0)
    case None => Err(AttributeError(NoMatch))
    case Some(q) => Ok(AllsAt(buf, q).value)
  }

  /** The ALLSTAR summary line with its four counts, followed by `rest`. */
  function AllsText(a: string, b: string, c: string, d: string, rest: string): string
  {
    a + (" " + (b + (" " + (c + (" " + (d + ("\n" + rest)))))))
  }

  /** Where a count and the blank after it sit in a text holding them at `i`. */
  lemma CountParts(s: string, i: nat, x: string, rest: string)
    requires i <= |s| && s[i..] == x + (" " + rest)
    ensures i + |x| < |s| && s[i..i + |x|] == x && s[i + |x|] == ' '
    ensures s[i + |x| + 1..] == rest
  {
    DropPrefix(s, i, x, " " + rest);
    DropPrefix(s, i + |x|, " ", rest);
    assert s[i..i + |x|] == s[i..][..|x|];
    assert s[i + |x|] == s[i + |x|..][0];
  }

  /** A count followed by one blank and then no blank is one field. */
  lemma FieldOf(s: string, i: nat, x: string)
    requires IsNumeral(x) && i + |x| + 1 <= |s|
    requires s[i..i + |x|] == x && s[i + |x|] == ' '
    requires i + |x| + 1 == |s| || s[i + |x| + 1] != ' '
    ensures Fields(s, i, 1) == Some(i + |x| + 1)
  {
    RunOfText(s, i, x, Digit);
    RunOf(s, i + |x|, 1, Blank);
  }

  /** `r_alls` at `i` from its pieces: two fields up to `p`, the third count `c` and its field up to `q`, the fourth count `d` and a line break. */
  lemma {:induction false} AllsAtFields(s: string, i: nat, p: nat, q: nat, c: string, d: string)
    requires i <= p <= q && q + |d| < |s| && d != ""
    requires Fields(s, i, 2) == Some(p) && Fields(s, p, 1) == Some(q)
    requires Run(s, p, Digit) == |c| && s[p..p + |c|] == c
    requires Run(s, q, Digit) == |d| && s[q..q + |d|] == d
    requires s[q + |d|] == '\n'
    ensures AllsAt(s, i) == Some((c, d))
  {
    assert Run(s, q + |d|, Blank) == 0;
  }

  /** `r_alls` at `i` over four counts, each followed by one blank but the last, which ends the line. */
  lemma AllsAtOf(s: string, i: nat, j: nat, p: nat, q: nat, a: string, b: string, c: string, d: string)
    requires j == i + |a| + 1 && p == j + |b| + 1 && q == p + |c| + 1 && q + |d| < |s|
    requires IsNumeral(a) && IsNumeral(b) && IsNumeral(c) && IsNumeral(d)
    requires s[i..i + |a|] == a && s[i + |a|] == ' '
    requires s[j..j + |b|] == b && s[j + |b|] == ' '
    requires s[p..p + |c|] == c && s[p + |c|] == ' '
    requires s[q..q + |d|] == d && s[q + |d|] == '\n'
    ensures AllsAt(s, i) == Some((c, d))
  {
    assert s[j] == b[0] by {
      assert s[j..j + |b|][0] == s[j];
    }
    assert s[p] == c[0] by {
      assert s[p..p + |c|][0] == s[p];
    }
    assert s[q] == d[0] by {
      assert s[q..q + |d|][0] == s[q];
    }
    FieldOf(s, i, a);
    FieldOf(s, j, b);
    FieldOf(s, p, c);
    assert Fields(s, i, 2) == Some(p);
    RunOfText(s, p, c, Digit);
    RunOfText(s, q, d, Digit);
    AllsAtFields(s, i, p, q, c, d);
  }

  /** The summary line at `i` is matched, and its third and fourth counts are the groups read. */
  lemma AllsTextAt(s: string, i: nat, a: string, b: string, c: string, d: string, rest: string)
    requires i <= |s| && s[i..] == AllsText(a, b, c, d, rest)
    requires IsNumeral(a) && IsNumeral(b) && IsNumeral(c) && IsNumeral(d)
    ensures AllsAt(s, i) == Some((c, d))
  {
    var j := i + |a| + 1;
    var p := j + |b| + 1;
    var q := p + |c| + 1;
    CountParts(s, i, a, b + (" " + (c + (" " + (d + ("\n" + rest))))));
    CountParts(s, j, b, c + (" " + (d + ("\n" + rest))));
    CountParts(s, p, c, d + ("\n" + rest));
    DropPrefix(s, q, d, "\n" + rest);
    assert s[q..q + |d|] == s[q..][..|d|];
    assert s[q + |d|] == s[q + |d|..][0];
    AllsAtOf(s, i, j, p, q, a, b, c, d);
  }

  /** No digit in `s[p..i]`, a position at a time. */
  predicate NoDigitFrom(s: string, p: nat, i: nat)
    requires p <= i <= |s|
    decreases i - p
  {
    p == i || (!IsDigit(s[p]) && NoDigitFrom(s, p + 1, i))
  }

  lemma {:induction false} NoDigitFromAll(s: string, p: nat, i: nat)
    requires p <= i <= |s|
    requires forall q :: p <= q < i ==> !IsDigit(s[q])
    ensures NoDigitFrom(s, p, i)
    decreases i - p
  {
    if p < i {
      NoDigitFromAll(s, p + 1, i);
    }
  }

  /** Where no digit precedes a match, the search finds that match. */
  lemma {:induction false} SearchAllsFrom(s: string, p: nat, i: nat)
    requires p <= i <= |s| && AllsAt(s, i).Some?
    requires NoDigitFrom(s, p, i)
    ensures SearchAlls(s, p) == Some(i)
    decreases i - p
  {
    if p < i {
      SearchAllsSkip(s, p);
      SearchAllsFrom(s, p + 1, i);
    }
  }

  /** The search steps over a position that holds no digit. */
  lemma SearchAllsSkip(s: string, p: nat)
    requires p < |s| && !IsDigit(s[p])
    ensures SearchAlls(s, p) == SearchAlls(s, p + 1)
  {
    assert Run(s, p, Digit) == 0;
    assert AllsAt(s, p).None?;
  }

  /**
   * The summary line after digit-free text reads back as its third and fourth
   * counts: `stars_no` reads what ALLSTAR prints.
   */
  lemma StarsNoReadsBack(pre: string, a: string, b: string, c: string, d: string, post: string)
    requires forall k :: 0 <= k < |pre| ==> !IsDigit(pre[k])
    requires IsNumeral(a) && IsNumeral(b) && IsNumeral(c) && IsNumeral(d)
    ensures StarsNo(pre + AllsText(a, b, c, d, post)) == Ok((c, d))
  {
    var s := pre + AllsText(a, b, c, d, post);
    assert s[|pre|..] == AllsText(a, b, c, d, post);
    AllsTextAt(s, |pre|, a, b, c, d, post);
    assert forall q :: 0 <= q < |pre| ==> s[q] == pre[q];
    NoDigitFromAll(s, 0, |pre|);
    SearchAllsFrom(s, 0, |pre|);
  }
}
