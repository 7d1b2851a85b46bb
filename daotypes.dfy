/**
 * The file-type side of `astwro.starlist.daofiles`: guessing a file's type
 * from its header and its number of columns, the type of a column within a
 * file type, converting a star list's columns to another file type, and the
 * type check made before a star list is written.
 */
module DaoTypes {
  import opened Common
  import opened FileFormats

  type Header = map<string, string>

  // ---------------------------------------------------------------------------
  // Guessing the file type
  // ---------------------------------------------------------------------------

  /** A sign, as `int()` accepts one in front of the digits. */
  predicate IsSign(c: char)
  {
    c == '+' || c == '-'
  }

  /** The length of the leading run of `str.split()` whitespace. */
  function LeadingSpace(s: string): (n: nat)
    ensures n <= |s|
    ensures forall j :: 0 <= j < n ==> IsSplitSpace(s[j])
    ensures n < |s| ==> !IsSplitSpace(s[n])
  {
    if s == [] || !IsSplitSpace(s[0]) then 0 else 1 + LeadingSpace(s[1..])
  }

  /** The length of the trailing run of `str.split()` whitespace. */
  function TrailingSpace(s: string): (n: nat)
    ensures n <= |s|
    ensures forall j :: |s| - n <= j < |s| ==> IsSplitSpace(s[j])
    ensures n < |s| ==> !IsSplitSpace(s[|s| - n - 1])
  {
    if s == [] || !IsSplitSpace(s[|s| - 1]) then 0 else 1 + TrailingSpace(s[..|s| - 1])
  }

  /** `s.strip()`: `s` without its leading and trailing whitespace. */
  function Strip(s: string): (t: string)
    ensures t == "" || (!IsSplitSpace(t[0]) && !IsSplitSpace(t[|t| - 1]))
  {
    var u := s[LeadingSpace(s)..];
    u[..|u| - TrailingSpace(u)]
  }

  /** A text with no whitespace at either end is its own `strip()`. */
  lemma StripTrimmed(s: string)
    requires s == "" || (!IsSplitSpace(s[0]) && !IsSplitSpace(s[|s| - 1]))
    ensures Strip(s) == s
  {
  }

  /** Whitespace around a text that has none at its ends is what `strip()` removes. */
  lemma StripPadded(lead: string, s: string, trail: string)
    requires forall j :: 0 <= j < |lead| ==> IsSplitSpace(lead[j])
    requires forall j :: 0 <= j < |trail| ==> IsSplitSpace(trail[j])
    requires s != "" && !IsSplitSpace(s[0]) && !IsSplitSpace(s[|s| - 1])
    ensures Strip(lead + s + trail) == s
  {
    var x := lead + s + trail;
    LeadAt(lead, s + trail);
    assert lead + (s + trail) == x;
    var u := x[|lead|..];
    assert u == s + trail;
    TrailAt(s, trail);
  }

  lemma {:induction false} LeadAt(lead: string, s: string)
    requires forall j :: 0 <= j < |lead| ==> IsSplitSpace(lead[j])
    requires s != "" && !IsSplitSpace(s[0])
    ensures LeadingSpace(lead + s) == |lead|
    decreases |lead|
  {
    if lead == [] {
      assert lead + s == s;
    } else {
      assert (lead + s)[1..] == lead[1..] + s;
      LeadAt(lead[1..], s);
    }
  }

  lemma {:induction false} TrailAt(s: string, trail: string)
    requires forall j :: 0 <= j < |trail| ==> IsSplitSpace(trail[j])
    requires s != "" && !IsSplitSpace(s[|s| - 1])
    ensures TrailingSpace(s + trail) == |trail|
    decreases |trail|
  {
    if trail == [] {
      assert s + trail == s;
    } else {
      var t := s + trail;
      assert t[..|t| - 1] == s + trail[..|trail| - 1];
      TrailAt(s, trail[..|trail| - 1]);
    }
  }

  /**
   * Decimal digits, with single underscores between them, as `int()`
   * accepts them: a digit at each end, and every underscore followed by a
   * digit.
   */
  predicate DigitGroups(t: string)
  {
    t != "" && IsDigit(t[0]) && IsDigit(t[|t| - 1])
    && (forall i :: 0 <= i < |t| ==> IsDigit(t[i]) || t[i] == '_')
    && (forall i :: 0 <= i < |t| - 1 && t[i] == '_' ==> IsDigit(t[i + 1]))
  }

  /** The digits of a text, the underscores left out. */
  function Unscored(t: string): (d: string)
    ensures |d| <= |t|
    ensures (forall i :: 0 <= i < |t| ==> IsDigit(t[i]) || t[i] == '_') ==> AllDigits(d)
    ensures AllDigits(t) ==> d == t
  {
    if t == [] then []
    else if t[0] == '_' then Unscored(t[1..])
    else [t[0]] + Unscored(t[1..])
  }

  /** What `int()` reads once the text is stripped: an optional sign, then digit groups. */
  predicate IntText(t: string)
  {
    DigitGroups(t) || (|t| >= 2 && IsSign(t[0]) && DigitGroups(t[1..]))
  }

  /**
   * `int(s)` in base 10: the text without surrounding whitespace must be an
   * optional sign and digits, which may be grouped by single underscores;
   * the value is that of the digits.
   */
  function IntOf(s: string): (r: Option<int>)
    ensures r.Some? <==> IntText(Strip(s))
    ensures r.Some? ==>
      var t := Strip(s);
      forall i :: 0 <= i < |t| ==> IsDigit(t[i]) || t[i] == '_' || (i == 0 && IsSign(t[i]))
  {
    var t := Strip(s);
    if DigitGroups(t) then Some(DecimalValue(Unscored(t)))
    else if |t| >= 2 && IsSign(t[0]) && DigitGroups(t[1..]) then
      assert forall i :: 1 <= i < |t| ==> t[i] == t[1..][i - 1];
      var v: int := DecimalValue(Unscored(t[1..]));
      Some(if t[0] == '-' then -v else v)
    else None
  }

  /** `int()` reads back the decimal text of a natural number. */
  lemma IntOfNatText(n: nat)
    ensures IntOf(NatText(n)) == Some(n)
  {
    var s := NatText(n);
    assert IsDigit(s[0]) && IsDigit(s[|s| - 1]);
    StripTrimmed(s);
  }

  /** Whitespace around the number and underscores between its digits change nothing. */
  lemma IntOfSpacedGrouped(lead: string, x: string, y: string, trail: string)
    requires forall j :: 0 <= j < |lead| ==> IsSplitSpace(lead[j])
    requires forall j :: 0 <= j < |trail| ==> IsSplitSpace(trail[j])
    requires x != "" && y != "" && AllDigits(x) && AllDigits(y)
    ensures IntOf(lead + (x + "_" + y) + trail) == IntOf(x + y) == Some(DecimalValue(x + y))
  {
    var g := x + "_" + y;
    GroupsJoined(x, y);
    StripPadded(lead, g, trail);
    UnscoredSplit(x, y);
    DigitsJoined(x, y);
    StripTrimmed(x + y);
  }

  /** Two digit texts joined by an underscore are digit groups. */
  lemma GroupsJoined(x: string, y: string)
    requires x != "" && y != "" && AllDigits(x) && AllDigits(y)
    ensures var g := x + "_" + y; DigitGroups(g) && !IsSplitSpace(g[0]) && !IsSplitSpace(g[|g| - 1])
  {
    var g := x + "_" + y;
    forall i | 0 <= i < |g|
      ensures (IsDigit(g[i]) || g[i] == '_') && (i < |g| - 1 && g[i] == '_' ==> IsDigit(g[i + 1]))
    {
      if i < |x| { assert g[i] == x[i]; }
      else if i == |x| { assert g[i + 1] == y[0]; }
      else { assert g[i] == y[i - |x| - 1]; }
    }
    assert g[0] == x[0] && g[|g| - 1] == y[|y| - 1];
  }

  /** Two digit texts joined are digit groups, with no whitespace at the ends. */
  lemma DigitsJoined(x: string, y: string)
    requires x != "" && y != "" && AllDigits(x) && AllDigits(y)
    ensures var d := x + y; AllDigits(d) && DigitGroups(d) && !IsSplitSpace(d[0]) && !IsSplitSpace(d[|d| - 1])
  {
    var d := x + y;
    forall i | 0 <= i < |d| ensures IsDigit(d[i]) {
      if i < |x| { assert d[i] == x[i]; } else { assert d[i] == y[i - |x|]; }
    }
  }

  lemma {:induction false} UnscoredSplit(x: string, y: string)
    requires AllDigits(x) && AllDigits(y)
    ensures Unscored(x + "_" + y) == x + y
    decreases |x|
  {
    if x == [] {
      assert x + "_" + y == "_" + y && ("_" + y)[1..] == y;
      assert x + y == y;
    } else {
      assert (x + "_" + y)[1..] == x[1..] + "_" + y;
      assert (x + "_" + y)[0] == x[0] && x[0] != '_';
      UnscoredSplit(x[1..], y);
      assert x + y == [x[0]] + (x[1..] + y);
    }
  }

  /** The message of the `ValueError` `int()` raises on a text that is not a number. */
  function IntMessage(s: string): string
  {
    "invalid literal for int() with base 10: '" + s + "'"
  }

  /** The table of `_guess_filetype`, by `NL` and the number of columns. */
  function TypeFor(nl: int, colno: nat): FType
  {
    if nl == 1 then
      if colno == 7 then CooFile
      else if colno == 9 then AlsFile
      else if colno == 5 then ShortFile
      else UnknownFile
    else if nl == 2 then ApFile
    else if nl == 3 then
      if colno == 6 then LstFile
      else if colno == 5 then NeiFile
      else UnknownFile
    else UnknownFile
  }

  /**
   * `_guess_filetype(header, table)`, with the table's number of columns
   * `colno`: no header, or an empty one, gives the unknown type; otherwise
   * `NL` must be present (a `KeyError`) and an integer (a `ValueError`).
   */
  function GuessFileType(header: Option<Header>, colno: nat): Result<FType>
  {
    if header.None? || header.value == map[] then Ok(UnknownFile)
    else if "NL" !in header.value then Err(KeyError("NL"))
    else
      match IntOf(header.value["NL"])
      case None => Err(ValueError(IntMessage(header.value["NL"])))
      case Some(nl) => Ok(TypeFor(nl, colno))
  }

  /** The types the guess can recognise. */
  const Guessable := [CooFile, AlsFile, ShortFile, ApFile, LstFile, NeiFile]

  /**
   * A type the guess recognises agrees with what it was guessed from: its
   * `NL` is the header's, and, except for the two-row aperture file, it has
   * as many columns as the table. The guess fails exactly when the header
   * lacks `NL` or its `NL` is not an integer.
   */
  lemma GuessAgrees(header: Option<Header>, colno: nat)
    ensures var r := GuessFileType(header, colno);
      (r.Err? <==> header.Some? && header.value != map[] &&
                   ("NL" !in header.value || IntOf(header.value["NL"]).None?)) &&
      (r.Ok? && r.value != UnknownFile ==>
        header.Some? && r.value.nl == IntOf(header.value["NL"]) &&
        r.value in Guessable &&
        (r.value != ApFile ==> |r.value.columns| == colno))
  {
    var r := GuessFileType(header, colno);
    if r.Ok? && r.value != UnknownFile {
      var nl := IntOf(header.value["NL"]).value;
      assert TypeFor(nl, colno) == r.value;
      TypeForKnown(nl, colno);
    }
  }

  /** A type the table gives, other than the unknown one, has the `NL` and, but for the aperture file, the number of columns it was chosen by. */
  lemma TypeForKnown(nl: int, colno: nat)
    ensures var t := TypeFor(nl, colno);
      t != UnknownFile ==> t.nl == Some(nl) && t in Guessable && (t != ApFile ==> |t.columns| == colno)
  {
    assert |CooFile.columns| == 7 && |AlsFile.columns| == 9 && |ShortFile.columns| == 5;
    assert |LstFile.columns| == 6 && |NeiFile.columns| == 5;
  }

  /** The table gives back every type the guess recognises, from its `NL` and its number of columns. */
  lemma TypeForGuessable(t: FType, colno: nat)
    requires t in Guessable && t.nl.Some?
    requires t == ApFile || colno == |t.columns|
    ensures TypeFor(t.nl.value, colno) == t
  {
    assert |CooFile.columns| == 7 && |AlsFile.columns| == 9 && |ShortFile.columns| == 5;
    assert |LstFile.columns| == 6 && |NeiFile.columns| == 5;
  }

  /** The unknown type is none of the ones the guess can recognise. */
  lemma UnknownDiffers()
    ensures UnknownFile !in Guessable
  {
    assert UnknownFile.extension == ".stars";
  }

  /**
   * Every type the guess can recognise is guessed from a header whose `NL`
   * is that type's and a table with that type's number of columns (any
   * number, for the aperture file).
   */
  lemma GuessRecognizes(hdr: Header, t: FType, colno: nat)
    requires t in Guessable
    requires "NL" in hdr && IntOf(hdr["NL"]) == t.nl
    requires t == ApFile || colno == |t.columns|
    ensures GuessFileType(Some(hdr), colno) == Ok(t)
  {
    assert hdr != map[];
    TypeForGuessable(t, colno);
  }

  /** An `NL` other than 1, 2 and 3 gives the unknown type. */
  lemma GuessOtherNL(hdr: Header, colno: nat)
    requires "NL" in hdr && IntOf(hdr["NL"]).Some?
    requires var nl := IntOf(hdr["NL"]).value; nl != 1 && nl != 2 && nl != 3
    ensures GuessFileType(Some(hdr), colno) == Ok(UnknownFile)
  {
    assert hdr != map[];
  }

  // ---------------------------------------------------------------------------
  // The type of a column
  // ---------------------------------------------------------------------------

  /**
   * `_get_col_type(file_ext, column)`: the entry for the extension and the
   * column, else the entry for the column, else the `_default` entry. A
   * `CType` found is always true, so a found entry is never passed over.
   */
  function GetColType(ext: string, col: Col): CType
  {
    ColTypeIn(Columns(), ext, col)
  }

  /** `_get_col_type` over the column dictionary `cs`. */
  function ColTypeIn(cs: map<ColKey, CType>, ext: string, col: Col): CType
  {
    if ByType(ext, col) in cs then cs[ByType(ext, col)]
    else if ByCol(col) in cs then cs[ByCol(col)]
    else if ByCol(N("_default")) in cs then cs[ByCol(N("_default"))]
    else DefaultType
  }

  /** The hexadecimal digits of the apertures 2 to 12. */
  predicate ApertDigit(c: char)
  {
    '2' <= c <= '9' || 'A' <= c <= 'C'
  }

  /** An aperture or aperture error column: `A`, the aperture's digit, and `_err` for the error. */
  predicate ApertColumn(col: Col)
  {
    col.Name? && |col.name| >= 2 && col.name[0] == 'A' && ApertDigit(col.name[1]) &&
    (|col.name| == 2 || col.name[2..] == "_err")
  }

  /** The aperture columns are exactly `A2` to `AC` and `A2_err` to `AC_err`. */
  lemma ApertColumnNamed(col: Col)
    ensures ApertColumn(col) <==> exists n :: 2 <= n < 13 && (col == N(ApertName(n)) || col == N(ApertErrName(n)))
  {
    if ApertColumn(col) {
      var c := col.name[1];
      var n: nat := if c <= '9' then c as int - '0' as int else c as int - 'A' as int + 10;
      assert HexUpper(n) == c;
      if |col.name| == 2 {
        assert col.name == ApertName(n);
      } else {
        assert col.name == ApertName(n) + "_err";
      }
    }
    forall n | 2 <= n < 13
      ensures ApertColumn(N(ApertName(n))) && ApertColumn(N(ApertErrName(n)))
    {
      assert ApertDigit(HexUpper(n));
    }
  }

  /**
   * The shape of an entry of `DAO.columns`: it names its column, its type is
   * optional exactly when it is keyed by an aperture or aperture error column
   * alone, and no entry keyed by an extension is for such a column.
   */
  predicate Shaped(key: ColKey, ct: CType)
  {
    key.col.Name? && (ct.optional <==> key.ByCol? && ApertColumn(key.col)) &&
    (key.ByType? ==> !ApertColumn(key.col))
  }

  /** Every entry of the static dictionary is shaped, and its `_default` entry is the default type. */
  lemma StaticShaped()
    ensures forall key :: key in StaticColumns ==> Shaped(key, StaticColumns[key])
    ensures ByCol(N("_default")) in StaticColumns && StaticColumns[ByCol(N("_default"))] == DefaultType
  {
    StaticNames();
    StaticKeys();
    NamesShaped(StaticColumns);
    StaticDefault();
  }

  lemma StaticDefault()
    ensures ByCol(N("_default")) in StaticColumns && StaticColumns[ByCol(N("_default"))] == DefaultType
  {
  }

  /** Entries that are not optional, under names not starting like an aperture column's, are shaped. */
  lemma NamesShaped(s: map<ColKey, CType>)
    requires forall key :: key in s ==> !s[key].optional && !ApertKey(key, 2) && !ApertKey(key, 6)
    requires forall key :: key in s ==> key.col.Name? && key.col.name != "" && key.col.name[0] != 'A'
    ensures forall key :: key in s ==> Shaped(key, s[key])
  {
  }

  /** Every key of the static dictionary names its column, and no name starts like an aperture column's. */
  lemma StaticNames()
    ensures forall key :: key in StaticColumns ==> key.col.Name? && key.col.name != "" && key.col.name[0] != 'A'
  {
  }

  /** Every entry of the aperture dictionary is shaped; its keys are aperture columns of two characters. */
  lemma ApertShaped()
    ensures forall key :: key in ApertColumns() ==> Shaped(key, ApertColumns()[key]) && ApertColumn(key.col) && |key.col.name| == 2
  {
    ApertColumnsLookup();
    forall key | key in ApertColumns()
      ensures Shaped(key, ApertColumns()[key]) && ApertColumn(key.col) && |key.col.name| == 2
    {
      var n :| 2 <= n < 13 && key == ByCol(N(ApertName(n)));
      assert ApertDigit(HexUpper(n));
    }
  }

  /** Every entry of the aperture error dictionary is shaped; its keys are aperture columns of six characters. */
  lemma ApertErrShaped()
    ensures forall key :: key in ApertErrColumns() ==> Shaped(key, ApertErrColumns()[key]) && ApertColumn(key.col) && |key.col.name| == 6
  {
    ApertErrColumnsLookup();
    forall key | key in ApertErrColumns()
      ensures Shaped(key, ApertErrColumns()[key]) && ApertColumn(key.col) && |key.col.name| == 6
    {
      var n :| 2 <= n < 13 && key == ByCol(N(ApertErrName(n)));
      ApertErrEntryShaped(n);
    }
  }

  /** The entry of aperture error column `A<n>_err` is shaped. */
  lemma ApertErrEntryShaped(n: nat)
    requires 2 <= n < 13
    ensures Shaped(ByCol(N(ApertErrName(n))), ApertErrType(n)) && ApertColumn(N(ApertErrName(n)))
  {
    assert ApertDigit(HexUpper(n));
    assert ApertErrName(n)[1] == HexUpper(n);
  }

  /** Chaining dictionaries of shaped entries. */
  lemma UnionShaped(s: map<ColKey, CType>, a: map<ColKey, CType>, e: map<ColKey, CType>)
    requires forall key :: key in s ==> Shaped(key, s[key])
    requires forall key :: key in a ==> Shaped(key, a[key]) && ApertColumn(key.col) && |key.col.name| == 2
    requires forall key :: key in e ==> Shaped(key, e[key]) && ApertColumn(key.col) && |key.col.name| == 6
    ensures forall key :: key in s + a + e ==> Shaped(key, (s + a + e)[key])
    ensures forall key :: key in s && !ApertColumn(key.col) ==> key in s + a + e && (s + a + e)[key] == s[key]
    ensures forall key :: key in a ==> key in s + a + e && (s + a + e)[key] == a[key]
  {
  }

  /**
   * Every entry of `DAO.columns` is shaped; its `_default` entry is the
   * default type and each aperture column has its aperture's type.
   */
  lemma ColumnsShaped()
    ensures forall key :: key in Columns() ==> Shaped(key, Columns()[key])
    ensures ByCol(N("_default")) in Columns() && Columns()[ByCol(N("_default"))] == DefaultType
    ensures forall n :: 2 <= n < 13 ==> ByCol(N(ApertName(n))) in Columns() && Columns()[ByCol(N(ApertName(n)))] == ApertType(n)
    ensures forall n :: 2 <= n < 13 ==> ByCol(N(ApertErrName(n))) in Columns()
  {
    StaticShaped();
    ApertShaped();
    ApertErrShaped();
    ApertColumnsLookup();
    ApertErrColumnsLookup();
    UnionShaped(StaticColumns, ApertColumns(), ApertErrColumns());
    assert !ApertColumn(N("_default"));
  }

  /**
   * Over a dictionary of shaped entries, a column's type is optional exactly
   * when it is an aperture or aperture error column, whatever the extension,
   * and a numbered column gets the `_default` entry.
   */
  lemma ShapedLookup(cs: map<ColKey, CType>, ext: string, col: Col)
    requires forall key :: key in cs ==> Shaped(key, cs[key])
    requires ByCol(N("_default")) in cs && cs[ByCol(N("_default"))] == DefaultType
    requires forall n :: 2 <= n < 13 ==> ByCol(N(ApertName(n))) in cs && ByCol(N(ApertErrName(n))) in cs
    requires forall n :: 2 <= n < 13 ==> cs[ByCol(N(ApertName(n)))] == ApertType(n)
    ensures ColTypeIn(cs, ext, col).optional <==> ApertColumn(col)
    ensures col.Number? ==> ColTypeIn(cs, ext, col) == DefaultType
    ensures forall n :: 2 <= n < 13 ==> ColTypeIn(cs, ext, N(ApertName(n))) == ApertType(n)
  {
    forall n | 2 <= n < 13
      ensures ColTypeIn(cs, ext, N(ApertName(n))) == ApertType(n)
    {
      ApertColumnNamed(N(ApertName(n)));
    }
    ApertColumnNamed(col);
    if ApertColumn(col) {
      var n :| 2 <= n < 13 && (col == N(ApertName(n)) || col == N(ApertErrName(n)));
      assert ByCol(col) in cs;
    }
  }

  /**
   * A column's type is optional exactly when it is an aperture or aperture
   * error column, whatever the extension; the type of an aperture column is
   * its aperture's, and a numbered column of the unknown file type has the
   * default type.
   */
  lemma ColTypeOptional(ext: string, col: Col)
    ensures GetColType(ext, col).optional <==> ApertColumn(col)
    ensures col.Number? ==> GetColType(ext, col) == DefaultType
    ensures forall n :: 2 <= n < 13 ==> GetColType(ext, N(ApertName(n))) == ApertType(n)
  {
    ColumnsShaped();
    ShapedLookup(Columns(), ext, col);
  }

  // ---------------------------------------------------------------------------
  // Converting a star list to another file type
  // ---------------------------------------------------------------------------

  /**
   * The part of a `StarList` the conversion works on: its columns in order,
   * the columns the conversion added, each with the value every row holds in
   * it, and its file type `DAO_type`.
   */
  class StarList {
    var columns: seq<Col>
    var filled: seq<(Col, Value)>
    var daoType: Option<FType>

    constructor(columns: seq<Col>, daoType: Option<FType>)
      ensures this.columns == columns && filled == [] && this.daoType == daoType
    {
      this.columns := columns;
      filled := [];
      this.daoType := daoType;
    }

    /** `starlist.loc[:, col] = value`: a new column, holding the value in every row. */
    method AddColumn(col: Col, value: Value)
      modifies this
      ensures columns == old(columns) + [col] && filled == old(filled) + [(col, value)]
      ensures daoType == old(daoType)
    {
      columns := columns + [col];
      filled := filled + [(col, value)];
    }
  }

  /**
   * A column a conversion can do without, or can add, under the column
   * dictionary `cs`: optional, or with a default.
   */
  predicate Acceptable(cs: map<ColKey, CType>, ext: string, col: Col)
  {
    ColTypeIn(cs, ext, col).optional || ColTypeIn(cs, ext, col).default.Some?
  }

  /**
   * The walk of `convert_dao_type` over the target columns `targets` of a
   * type with extension `ext`, on a star list with columns `have`, looking
   * column types up in `cs`: whether it succeeds, and the columns it adds
   * with their defaults, in order. The columns added before a failure stay
   * added.
   */
  function Conversion(cs: map<ColKey, CType>, targets: seq<Col>, have: seq<Col>, ext: string): (bool, seq<(Col, Value)>)
    decreases |targets|
  {
    if targets == [] then (true, [])
    else
      var col := targets[0];
      var ct := ColTypeIn(cs, ext, col);
      if col in have || ct.optional then Conversion(cs, targets[1..], have, ext)
      else if ct.default.None? then (false, [])
      else Then([(col, ct.default.value)], Conversion(cs, targets[1..], have + [col], ext))
  }

  /** What a conversion did before, followed by the rest of it. */
  function Then(before: seq<(Col, Value)>, r: (bool, seq<(Col, Value)>)): (bool, seq<(Col, Value)>)
  {
    (r.0, before + r.1)
  }

  /** The columns of a list of pairs. */
  function Firsts(ps: seq<(Col, Value)>): (r: seq<Col>)
    ensures |r| == |ps| && forall k :: 0 <= k < |ps| ==> r[k] == ps[k].0
  {
    seq(|ps|, k requires 0 <= k < |ps| => ps[k].0)
  }

  /**
   * `convert_dao_type(starlist, new_daotype, update_daotype)`, with the
   * column dictionary `DAO.columns` as `cs`: adds each missing, non-optional
   * column of the new type that has a default, and fails at the first one
   * that has none; on success, and only when asked, the star list takes the
   * new type.
   */
  method ConvertDaoType(s: StarList, cs: map<ColKey, CType>, newType: FType, update: bool) returns (ok: bool)
    modifies s
    ensures var (c, added) := Conversion(cs, newType.columns, old(s.columns), newType.extension);
      ok == c && s.columns == old(s.columns) + Firsts(added) && s.filled == old(s.filled) + added
    ensures s.daoType == if ok && update then Some(newType) else old(s.daoType)
  {
    var targets := newType.columns;
    var ext := newType.extension;
    ghost var have := s.columns;
    ghost var added: seq<(Col, Value)> := [];
    var i := 0;
    assert targets[0..] == targets;
    ThenNone(Conversion(cs, targets, have, ext));
    while i < |targets|
      invariant i <= |targets|
      invariant s.columns == have + Firsts(added) && s.filled == old(s.filled) + added
      invariant s.daoType == old(s.daoType)
      invariant Conversion(cs, targets, have, ext) == Then(added, Conversion(cs, targets[i..], s.columns, ext))
    {
      var col := targets[i];
      assert targets[i..][1..] == targets[i + 1..];
      if col !in s.columns {
        var ct := ColTypeIn(cs, ext, col);
        if !ct.optional {
          if ct.default.None? {
            return false;
          }
          ghost var pair := (col, ct.default.value);
          s.AddColumn(col, ct.default.value);
          ThenStep(added, pair, Conversion(cs, targets[i + 1..], s.columns, ext));
          added := added + [pair];
        }
      }
      i := i + 1;
    }
    if update {
      s.daoType := Some(newType);
    }
    ok := true;
  }

  /**
   * The choice of type in `write_dao_file(starlist, file, dao_type)`: with no
   * type given, the star list's own, and an error when it has none; with a
   * type different from the list's own, the list is converted to it first,
   * keeping its own type, and an error when that fails. The type the table
   * would be written with is the result.
   */
  method WriteDaoType(s: StarList, cs: map<ColKey, CType>, daoType: Option<FType>) returns (r: Result<FType>)
    modifies s
    ensures s.daoType == old(s.daoType)
    ensures daoType.None? ==>
      r == (if old(s.daoType).None? then Err(RuntimeError("Can not determine file format")) else Ok(old(s.daoType).value)) &&
      s.columns == old(s.columns) && s.filled == old(s.filled)
    ensures daoType.Some? && daoType == old(s.daoType) ==>
      r == Ok(daoType.value) && s.columns == old(s.columns) && s.filled == old(s.filled)
    ensures daoType.Some? && daoType != old(s.daoType) ==>
      var (c, added) := Conversion(cs, daoType.value.columns, old(s.columns), daoType.value.extension);
      r == (if c then Ok(daoType.value) else Err(RuntimeError("Can not convert columns"))) &&
      s.columns == old(s.columns) + Firsts(added) && s.filled == old(s.filled) + added
  {
    if daoType.None? {
      if s.daoType.None? {
        return Err(RuntimeError("Can not determine file format"));
      }
      return Ok(s.daoType.value);
    } else if daoType != s.daoType {
      var converted := ConvertDaoType(s, cs, daoType.value, false);
      if !converted {
        return Err(RuntimeError("Can not convert columns"));
      }
    }
    r := Ok(daoType.value);
  }

  lemma ThenStep(before: seq<(Col, Value)>, pair: (Col, Value), r: (bool, seq<(Col, Value)>))
    ensures Then(before, Then([pair], r)) == Then(before + [pair], r)
    ensures Firsts(before + [pair]) == Firsts(before) + [pair.0]
  {
    assert before + ([pair] + r.1) == before + [pair] + r.1;
  }

  lemma ThenNone(r: (bool, seq<(Col, Value)>))
    ensures Then([], r) == r
  {
    assert [] + r.1 == r.1;
  }
  /**
   * A conversion succeeds exactly when every target column is already there,
   * optional, or has a default.
   */
  lemma {:induction false} ConversionOk(cs: map<ColKey, CType>, targets: seq<Col>, have: seq<Col>, ext: string)
    ensures Conversion(cs, targets, have, ext).0 <==>
      forall k :: 0 <= k < |targets| ==> targets[k] in have || Acceptable(cs, ext, targets[k])
    decreases |targets|
  {
    if targets != [] {
      var col := targets[0];
      var ct := ColTypeIn(cs, ext, col);
      var rest := targets[1..];
      assert forall k :: 1 <= k < |targets| ==> targets[k] == rest[k - 1];
      if col in have || ct.optional {
        ConversionOk(cs, rest, have, ext);
      } else if ct.default.Some? {
        ConversionOk(cs, rest, have + [col], ext);
        assert forall c :: c in have + [col] || Acceptable(cs, ext, c) <==> c in have || Acceptable(cs, ext, c);
      }
    }
  }

  /** A column added by a conversion, with its value. */
  predicate Added(cs: map<ColKey, CType>, targets: seq<Col>, have: seq<Col>, ext: string, p: (Col, Value))
  {
    p.0 in targets && p.0 !in have && !ColTypeIn(cs, ext, p.0).optional && ColTypeIn(cs, ext, p.0).default == Some(p.1)
  }

  /**
   * The columns a conversion adds are targets that were missing, are not
   * optional and have a default, which is the value they get.
   */
  lemma {:induction false} ConversionAdds(cs: map<ColKey, CType>, targets: seq<Col>, have: seq<Col>, ext: string)
    ensures forall p :: p in Conversion(cs, targets, have, ext).1 ==> Added(cs, targets, have, ext, p)
    decreases |targets|
  {
    if targets != [] {
      var col := targets[0];
      var ct := ColTypeIn(cs, ext, col);
      var rest := targets[1..];
      if col in have || ct.optional {
        ConversionAdds(cs, rest, have, ext);
      } else if ct.default.Some? {
        ConversionAdds(cs, rest, have + [col], ext);
        var r := Conversion(cs, rest, have + [col], ext);
        var added := [(col, ct.default.value)] + r.1;
        assert Conversion(cs, targets, have, ext).1 == added;
        forall p | p in added
          ensures Added(cs, targets, have, ext, p)
        {
          if p in r.1 {
            assert Added(cs, rest, have + [col], ext, p);
          } else {
            assert p == added[0];
          }
        }
      }
    }
  }

  /** No column occurs twice. */
  predicate DistinctFirsts(ps: seq<(Col, Value)>)
  {
    forall m, n :: 0 <= m < n < |ps| ==> ps[m].0 != ps[n].0
  }

  /** No column is added twice. */
  lemma {:induction false} ConversionDistinct(cs: map<ColKey, CType>, targets: seq<Col>, have: seq<Col>, ext: string)
    ensures DistinctFirsts(Conversion(cs, targets, have, ext).1)
    decreases |targets|
  {
    if targets != [] {
      var col := targets[0];
      var ct := ColTypeIn(cs, ext, col);
      var rest := targets[1..];
      if col in have || ct.optional {
        ConversionDistinct(cs, rest, have, ext);
      } else if ct.default.Some? {
        ConversionDistinct(cs, rest, have + [col], ext);
        ConversionAdds(cs, rest, have + [col], ext);
        var r := Conversion(cs, rest, have + [col], ext);
        var added := [(col, ct.default.value)] + r.1;
        assert Conversion(cs, targets, have, ext).1 == added;
        forall m, n | 0 <= m < n < |added|
          ensures added[m].0 != added[n].0
        {
          assert added[n] == r.1[n - 1];
          if m == 0 {
            assert Added(cs, rest, have + [col], ext, r.1[n - 1]);
          } else {
            assert added[m] == r.1[m - 1];
          }
        }
      }
    }
  }

  /** After a success every target column is there or optional. */
  lemma {:induction false} ConversionCovers(cs: map<ColKey, CType>, targets: seq<Col>, have: seq<Col>, ext: string)
    requires Conversion(cs, targets, have, ext).0
    ensures var added := Conversion(cs, targets, have, ext).1;
      forall k :: 0 <= k < |targets| ==>
        targets[k] in have + Firsts(added) || ColTypeIn(cs, ext, targets[k]).optional
    decreases |targets|
  {
    if targets != [] {
      var col := targets[0];
      var ct := ColTypeIn(cs, ext, col);
      var rest := targets[1..];
      assert forall k :: 1 <= k < |targets| ==> targets[k] == rest[k - 1];
      if col in have || ct.optional {
        ConversionCovers(cs, rest, have, ext);
      } else {
        ConversionCovers(cs, rest, have + [col], ext);
        var r := Conversion(cs, rest, have + [col], ext);
        var added := [(col, ct.default.value)] + r.1;
        assert have + Firsts(added) == have + [col] + Firsts(r.1);
      }
    }
  }
  /** Looking up a key not named like an aperture column in chained dictionaries. */
  lemma PlainLookup(s: map<ColKey, CType>, a: map<ColKey, CType>, e: map<ColKey, CType>, key: ColKey)
    requires forall k :: k in a ==> ApertColumn(k.col)
    requires forall k :: k in e ==> ApertColumn(k.col)
    requires !ApertColumn(key.col)
    ensures (key in s + a + e <==> key in s) && (key in s ==> (s + a + e)[key] == s[key])
  {
  }

  /** A column not named like an aperture column has the type the static part of `DAO.columns` gives it. */
  lemma ColTypeStatic(ext: string, col: Col)
    requires !ApertColumn(col)
    ensures GetColType(ext, col) == ColTypeIn(StaticColumns, ext, col)
  {
    ApertShaped();
    ApertErrShaped();
    PlainLookup(StaticColumns, ApertColumns(), ApertErrColumns(), ByType(ext, col));
    PlainLookup(StaticColumns, ApertColumns(), ApertErrColumns(), ByCol(col));
    PlainLookup(StaticColumns, ApertColumns(), ApertErrColumns(), ByCol(N("_default")));
  }

  /** The types `.als` files give in `cs` to the columns a `.nei` or `.coo` list lacks. */
  predicate AlsTypes(cs: map<ColKey, CType>)
  {
    var z := Some(D(0, 0));
    !ColTypeIn(cs, ".als", N("mag")).optional && ColTypeIn(cs, ".als", N("mag")).default.None? &&
    !ColTypeIn(cs, ".als", N("mag_err")).optional && ColTypeIn(cs, ".als", N("mag_err")).default == z &&
    !ColTypeIn(cs, ".als", N("iter")).optional && ColTypeIn(cs, ".als", N("iter")).default == z &&
    !ColTypeIn(cs, ".als", N("chi")).optional && ColTypeIn(cs, ".als", N("chi")).default == z &&
    !ColTypeIn(cs, ".als", N("sharp")).optional && ColTypeIn(cs, ".als", N("sharp")).default == z
  }

  /**
   * A walk that passes over targets already there and adds four missing
   * ones, each defaulting to `v`, around one more that is there.
   */
  lemma AddsFour(cs: map<ColKey, CType>, ext: string, pre: seq<Col>, h: seq<Col>,
                 e: Col, sky: Col, g: Col, c: Col, s: Col, v: Value)
    requires forall k :: 0 <= k < |pre| ==> pre[k] in h
    requires sky in h && e !in h && g !in h + [e] && c !in h + [e] + [g] && s !in h + [e] + [g] + [c]
    requires forall col :: col in [e, g, c, s] ==>
      !ColTypeIn(cs, ext, col).optional && ColTypeIn(cs, ext, col).default == Some(v)
    ensures Conversion(cs, pre + [e, sky, g, c, s], h, ext) == (true, [(e, v), (g, v), (c, v), (s, v)])
  {
    assert pre + [e, sky, g, c, s] == pre + ([e] + [sky, g, c, s]);
    ConversionSkip(cs, pre, [e] + [sky, g, c, s], h, ext);
    ConversionAdd(cs, e, [sky, g, c, s], h, ext);
    assert [sky, g, c, s] == [sky] + [g, c, s];
    ConversionSkip(cs, [sky], [g, c, s], h + [e], ext);
    ConversionAdd(cs, g, [c, s], h + [e], ext);
    ConversionAdd(cs, c, [s], h + [e] + [g], ext);
    ConversionAdd(cs, s, [], h + [e] + [g] + [c], ext);
    ThenFour((e, v), (g, v), (c, v), (s, v));
  }

  lemma ThenFour(a: (Col, Value), b: (Col, Value), c: (Col, Value), d: (Col, Value))
    ensures Then([a], Then([b], Then([c], Then([d], (true, []))))) == (true, [a, b, c, d])
  {
    assert [d] + [] == [d];
    assert [c] + [d] == [c, d];
    assert [b] + [c, d] == [b, c, d];
    assert [a] + [b, c, d] == [a, b, c, d];
  }

  /** The `.als` columns a `.nei` list lacks, as the conversion adds them. */
  lemma NeiMissing()
    ensures var h := NeiFile.columns;
      N("mag_err") !in h && N("iter") !in h + [N("mag_err")] &&
      N("chi") !in h + [N("mag_err")] + [N("iter")] &&
      N("sharp") !in h + [N("mag_err")] + [N("iter")] + [N("chi")]
  {
    var h := NeiFile.columns;
    assert h + [N("mag_err")] + [N("iter")] + [N("chi")] ==
      [N("id"), N("x"), N("y"), N("mag"), N("sky"), N("mag_err"), N("iter"), N("chi")];
  }

  /** Targets already there are passed over. */
  lemma {:induction false} ConversionSkip(cs: map<ColKey, CType>, there: seq<Col>, rest: seq<Col>, have: seq<Col>, ext: string)
    requires forall k :: 0 <= k < |there| ==> there[k] in have
    ensures Conversion(cs, there + rest, have, ext) == Conversion(cs, rest, have, ext)
    decreases |there|
  {
    if there == [] {
      assert there + rest == rest;
    } else {
      assert (there + rest)[0] == there[0] && (there + rest)[1..] == there[1..] + rest;
      assert there[0] in have;
      assert Conversion(cs, there + rest, have, ext) == Conversion(cs, there[1..] + rest, have, ext);
      ConversionSkip(cs, there[1..], rest, have, ext);
    }
  }

  /** A missing, non-optional target with a default is added. */
  lemma ConversionAdd(cs: map<ColKey, CType>, col: Col, rest: seq<Col>, have: seq<Col>, ext: string)
    requires col !in have && !ColTypeIn(cs, ext, col).optional && ColTypeIn(cs, ext, col).default.Some?
    ensures Conversion(cs, [col] + rest, have, ext) ==
      Then([(col, ColTypeIn(cs, ext, col).default.value)], Conversion(cs, rest, have + [col], ext))
  {
    assert ([col] + rest)[1..] == rest;
  }

  lemma CooToAlsIn(cs: map<ColKey, CType>)
    requires AlsTypes(cs)
    ensures Conversion(cs, AlsFile.columns, CooFile.columns, ".als") == (false, [])
  {
    var t := AlsFile.columns;
    assert t[1..][1..][1..] == [N("mag"), N("mag_err"), N("sky"), N("iter"), N("chi"), N("sharp")];
    assert N("mag") !in CooFile.columns;
  }

  /** `DAO.columns` gives `.als` files those types. */
  lemma ColumnsAlsTypes()
    ensures AlsTypes(Columns())
  {
    ColTypeStatic(".als", N("mag"));
    ColTypeStatic(".als", N("mag_err"));
    ColTypeStatic(".als", N("iter"));
    ColTypeStatic(".als", N("chi"));
    ColTypeStatic(".als", N("sharp"));
    StaticAlsTypes();
  }

  lemma StaticAlsTypes()
    ensures AlsTypes(StaticColumns)
  {
    StaticAlsMag();
    StaticAlsFit();
  }

  lemma StaticAlsMag()
    ensures ByType(".als", N("mag")) in StaticColumns && ByType(".als", N("mag_err")) in StaticColumns
    ensures !StaticColumns[ByType(".als", N("mag"))].optional && StaticColumns[ByType(".als", N("mag"))].default.None?
    ensures !StaticColumns[ByType(".als", N("mag_err"))].optional && StaticColumns[ByType(".als", N("mag_err"))].default == Some(D(0, 0))
  {
  }

  lemma StaticAlsFit()
    ensures ByType(".als", N("iter")) !in StaticColumns && ByType(".als", N("chi")) !in StaticColumns && ByType(".als", N("sharp")) !in StaticColumns
    ensures ByCol(N("iter")) in StaticColumns && ByCol(N("chi")) in StaticColumns && ByCol(N("sharp")) in StaticColumns
    ensures !StaticColumns[ByCol(N("iter"))].optional && StaticColumns[ByCol(N("iter"))].default == Some(D(0, 0))
    ensures !StaticColumns[ByCol(N("chi"))].optional && StaticColumns[ByCol(N("chi"))].default == Some(D(0, 0))
    ensures !StaticColumns[ByCol(N("sharp"))].optional && StaticColumns[ByCol(N("sharp"))].default == Some(D(0, 0))
  {
  }

  /**
   * With `DAO.columns`, a `.nei` list converts to `.als` by adding the error
   * of magnitude, the iteration count, chi and sharpness, each zero; a `.coo`
   * list cannot, for it has no `mag`, which has no default there.
   */
  lemma NeiToAlsIn(cs: map<ColKey, CType>)
    requires AlsTypes(cs)
    ensures Conversion(cs, AlsFile.columns, NeiFile.columns, ".als") ==
      (true, [(N("mag_err"), D(0, 0)), (N("iter"), D(0, 0)), (N("chi"), D(0, 0)), (N("sharp"), D(0, 0))])
  {
    NeiMissing();
    assert AlsFile.columns == [N("id"), N("x"), N("y"), N("mag")] + [N("mag_err"), N("sky"), N("iter"), N("chi"), N("sharp")];
    AddsFour(cs, ".als", [N("id"), N("x"), N("y"), N("mag")], NeiFile.columns,
             N("mag_err"), N("sky"), N("iter"), N("chi"), N("sharp"), D(0, 0));
  }

  lemma NeiToAls()
    ensures Conversion(Columns(), AlsFile.columns, NeiFile.columns, ".als") ==
      (true, [(N("mag_err"), D(0, 0)), (N("iter"), D(0, 0)), (N("chi"), D(0, 0)), (N("sharp"), D(0, 0))])
    ensures Conversion(Columns(), AlsFile.columns, CooFile.columns, ".als") == (false, [])
  {
    ColumnsAlsTypes();
    NeiToAlsIn(Columns());
    CooToAlsIn(Columns());
  }
}
