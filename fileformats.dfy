/**
 * `astwro.starlist.fileformats`: the DAOPHOT file types (their columns,
 * extension, number of header lines `NL` and the number of columns read) and
 * the column types, looked up by `(extension, column)` or by column.
 */
module FileFormats {
  import opened Common

  /** A column label: a name, or one of the numbers of the unknown file type. */
  datatype Col = Name(name: string) | Number(n: int)

  /** `DAO.FType`: columns, extension, `NL` and `read_cols` (`None` for Python's `None`). */
  datatype FType = FType(columns: seq<Col>, extension: string, nl: Option<int>, readCols: Option<nat>)

  /** A number or a text in a column: the NaN markers and the defaults. */
  datatype Value = Num(d: Decimal) | Text(s: string)

  /** `DAO.CType`: name, output format, the values read as NaN, the default and whether it is optional. */
  datatype CType = CType(name: string, format: string, nan: seq<Value>, default: Option<Value>, optional: bool)

  /** A key of the column dictionary: a column alone, or an extension and a column. */
  datatype ColKey = ByCol(col: Col) | ByType(ext: string, col: Col)

  function N(s: string): Col
  {
    Name(s)
  }

  /** A decimal number `m * 10^e`. */
  function D(m: int, e: int): Value
  {
    Num(Decimal(m, e))
  }

  /** `'{:X}'.format(n)` for one digit. */
  function HexUpper(n: nat): (c: char)
    requires n < 16
  {
    if n < 10 then ('0' as int + n) as char else ('A' as int + n - 10) as char
  }

  /** `'A{:X}'.format(n)`, the aperture column of aperture `n`. */
  function ApertName(n: nat): (r: string)
    requires n < 16
    ensures |r| == 2 && r[0] == 'A'
  {
    ['A', HexUpper(n)]
  }

  /** `'A{:X}_err'.format(n)`. */
  function ApertErrName(n: nat): (r: string)
    requires n < 16
    ensures |r| == 6 && r[0] == 'A' && r[2..] == "_err"
  {
    ApertName(n) + "_err"
  }

  /** The apertures 2 to 12 (`range(2, 13)`). */
  const ApertCount := 11

  /** The aperture columns `A2` ... `AC`. */
  function ApertCols(): (r: seq<Col>)
    ensures |r| == ApertCount
    ensures forall k :: 0 <= k < ApertCount ==> r[k] == N(ApertName(k + 2))
  {
    seq(ApertCount, k requires 0 <= k < ApertCount => N(ApertName(k + 2)))
  }

  /** The aperture error columns `A2_err` ... `AC_err`. */
  function ApertErrCols(): (r: seq<Col>)
    ensures |r| == ApertCount
    ensures forall k :: 0 <= k < ApertCount ==> r[k] == N(ApertErrName(k + 2))
  {
    seq(ApertCount, k requires 0 <= k < ApertCount => N(ApertErrName(k + 2)))
  }

  /** The columns of the unknown type: `'id'` then the numbers 1 to 99. */
  function UnknownCols(): (r: seq<Col>)
    ensures |r| == 100 && r[0] == N("id")
    ensures forall k :: 1 <= k < 100 ==> r[k] == Number(k)
  {
    [N("id")] + seq(99, k requires 0 <= k < 99 => Number(k + 1))
  }

  const UnknownFile := FType(UnknownCols(), ".stars", Some(1), None)
  const CooFile := FType([N("id"), N("x"), N("y"), N("rmag"), N("fsharp"), N("round"), N("mround")], ".coo", Some(1), None)
  /** The first row of each star in an aperture file (used in reading). */
  const ApFileOdd := FType([N("id"), N("x"), N("y"), N("mag")] + ApertCols(), "", Some(2), None)
  /** The second row of each star in an aperture file (used in reading). */
  const ApFileEven := FType([N("sky"), N("sky_err"), N("sky_skew"), N("mag_err")] + ApertErrCols(), "", Some(2), None)
  /** The aperture file type used in writing: the first row's columns, then the second row's. */
  const ApFile := FType(ApFileOdd.columns + ApFileEven.columns, ".ap", Some(2), None)
  const LstFile := FType([N("id"), N("x"), N("y"), N("mag"), N("mag_err"), N("d")], ".lst", Some(3), None)
  const NeiFile := FType([N("id"), N("x"), N("y"), N("mag"), N("sky")], ".nei", Some(3), Some(5))
  const AlsFile := FType([N("id"), N("x"), N("y"), N("mag"), N("mag_err"), N("sky"), N("iter"), N("chi"), N("sharp")],
                         ".als", Some(1), None)
  const ErrFile := FType([N("id"), N("err")], ".err", None, Some(2))
  const ShortFile := FType([N("id"), N("x"), N("y"), N("mag"), N("mag_err")], ".all_stars", Some(1), None)
  const XyFile := FType([N("id"), N("x"), N("y")], ".xy", Some(1), Some(3))
  const SkyFile := FType([N("id"), N("x"), N("y"), N("mag"), N("mag_err"), N("ra"), N("dec")], ".sky", Some(1), None)
  const RadecFile := FType([N("id"), N("ra"), N("dec")], ".radec", Some(1), None)

  /** Every file type the module defines. */
  const AllTypes := [UnknownFile, CooFile, ApFileOdd, ApFileEven, ApFile, LstFile, NeiFile, AlsFile,
                     ErrFile, ShortFile, XyFile, SkyFile, RadecFile]

  /** `DAO.file_types`: the types a file name's extension selects. */
  const FileTypes: map<string, FType> := map[
    CooFile.extension := CooFile,
    ApFile.extension := ApFile,
    LstFile.extension := LstFile,
    NeiFile.extension := NeiFile,
    AlsFile.extension := AlsFile,
    ErrFile.extension := ErrFile,
    ShortFile.extension := ShortFile,
    XyFile.extension := XyFile,
    RadecFile.extension := RadecFile]

  /** `dict(pairs)`: a later pair for the same key replaces an earlier one. */
  function DictOf<K, V>(ps: seq<(K, V)>): (m: map<K, V>)
    ensures m.Keys == set i | 0 <= i < |ps| :: ps[i].0
  {
    if ps == [] then map[]
    else
      var m0 := DictOf(ps[..|ps| - 1]);
      var last := ps[|ps| - 1];
      assert forall i :: 0 <= i < |ps| - 1 ==> ps[..|ps| - 1][i] == ps[i];
      m0[last.0 := last.1]
  }

  /** The type of every column that has no dictionary entry of its own. */
  const DefaultType := CType("_default", "{:9.3f}", [D(-9999, -3)], None, false)

  /** `DAO._static_columns`. */
  const StaticColumns: map<ColKey, CType> := map[
    ByCol(N("_default")) := DefaultType,
    ByCol(N("id")) := CType("id", "{:7.0f}", [D(0, 0)], None, false),
    ByType(".als", N("mag")) := CType("mag", "{:9.4f}", [D(99999, -3)], None, false),
    ByType(".als", N("mag_err")) := CType("mag_err", "{:9.4f}", [D(99999, -4)], Some(D(0, 0)), false),
    ByType(".sky", N("mag")) := CType("mag", "{:9.4f}", [D(99999, -3)], None, false),
    ByType(".sky", N("mag_err")) := CType("mag_err", "{:9.4f}", [D(99999, -4)], Some(D(0, 0)), false),
    ByCol(N("iter")) := CType("iter", "{:8.0f}.", [D(-9999, -3)], Some(D(0, 0)), false),
    ByCol(N("chi")) := CType("chi", "{:9.3f}", [D(-9999, -3)], Some(D(0, 0)), false),
    ByCol(N("sharp")) := CType("sharp", "{:9.3f}", [D(-9999, -3)], Some(D(0, 0)), false),
    ByCol(N("sky")) := CType("sky", "{:10.3f}", [D(-9999, -3)], None, false),
    ByCol(N("sky_err")) := CType("sky_err", "{:6.2f}", [D(-999, -2), D(-9999, 0)], Some(D(0, 0)), false),
    ByCol(N("sky_skew")) := CType("sky_skew", "{:6.2f}", [D(-999, -2)], Some(D(0, 0)), false),
    ByCol(N("ra")) := CType("ra", " {:s}", [], Some(Text("00:00:00.0000")), false),
    ByCol(N("dec")) := CType("dec", " {:s}", [], Some(Text("+00:00:00.000")), false),
    ByType(".ap", N("mag")) := CType("mag", "{:9.3f}", [D(99999, -3), D(-99999, -3), D(94999, -3), D(98999, -3)], None, false),
    ByType(".ap", N("mag_err")) := CType("mag_err", "{:8.4f}", [D(99999, -4)], Some(D(0, 0)), false),
    ByType(".ap", N("id")) := CType("id", "\n{:7.0f}", [D(0, 0)], None, false),
    ByType(".ap", N("sky")) := CType("sky", "\n{:14.3f}", [D(-9999, -3), D(0, 0)], None, false)]

  /** The type of aperture column `A<n>`: optional, three fixed-point decimals. */
  function ApertType(n: nat): CType
    requires n < 16
  {
    CType(ApertName(n), "{:9.3f}", [D(99999, -3), D(-99999, -3), D(94999, -3)], None, true)
  }

  /** The type of aperture error column `A<n>_err`: optional, four fixed-point decimals. */
  function ApertErrType(n: nat): CType
    requires n < 16
  {
    CType(ApertErrName(n), "{:8.4f}", [D(99999, -4)], None, true)
  }

  /** The pairs `DAO._apert_columns` is built from, apertures 2 to 12. */
  function ApertPairs(): (r: seq<(ColKey, CType)>)
    ensures |r| == ApertCount
    ensures forall k :: 0 <= k < ApertCount ==> r[k] == (ByCol(N(ApertName(k + 2))), ApertType(k + 2))
  {
    seq(ApertCount, k requires 0 <= k < ApertCount => (ByCol(N(ApertName(k + 2))), ApertType(k + 2)))
  }

  /** The pairs `DAO._ap_err_columns` is built from, apertures 2 to 12. */
  function ApertErrPairs(): (r: seq<(ColKey, CType)>)
    ensures |r| == ApertCount
    ensures forall k :: 0 <= k < ApertCount ==> r[k] == (ByCol(N(ApertErrName(k + 2))), ApertErrType(k + 2))
  {
    seq(ApertCount, k requires 0 <= k < ApertCount => (ByCol(N(ApertErrName(k + 2))), ApertErrType(k + 2)))
  }

  function ApertColumns(): map<ColKey, CType>
  {
    DictOf(ApertPairs())
  }

  function ApertErrColumns(): map<ColKey, CType>
  {
    DictOf(ApertErrPairs())
  }

  /** `DAO.columns`: the static, aperture and aperture error dictionaries chained into one. */
  function Columns(): map<ColKey, CType>
  {
    StaticColumns + ApertColumns() + ApertErrColumns()
  }

  /** Every extension `file_types` knows selects the type with that extension. */
  lemma FileTypesKeyed()
    ensures FileTypes.Keys == {".coo", ".ap", ".lst", ".nei", ".als", ".err", ".all_stars", ".xy", ".radec"}
    ensures forall e :: e in FileTypes ==> FileTypes[e].extension == e
  {
  }

  /** The sky and unknown types are chosen by no extension. */
  lemma UnregisteredTypes()
    ensures SkyFile.extension !in FileTypes && UnknownFile.extension !in FileTypes
    ensures forall e :: e in FileTypes ==> FileTypes[e] != SkyFile && FileTypes[e] != UnknownFile
  {
  }

  /** `read_cols`, where set, never asks for more columns than the type names. */
  lemma ReadColsWithin()
    ensures forall k :: 0 <= k < |AllTypes| && AllTypes[k].readCols.Some? ==>
      AllTypes[k].readCols.value <= |AllTypes[k].columns|
    ensures NeiFile.readCols == Some(5) && ErrFile.readCols == Some(2) && XyFile.readCols == Some(3)
  {
  }

  /** The aperture columns are spelled with one upper-case hexadecimal digit, `A2` to `AC`. */
  lemma ApertNamesSpelled()
    ensures ApertName(2) == "A2" && ApertName(9) == "A9" && ApertName(10) == "AA" && ApertName(12) == "AC"
    ensures ApertErrName(2) == "A2_err" && ApertErrName(12) == "AC_err"
  {
  }

  /** Different apertures have differently named columns. */
  lemma ApertNameInjective(a: nat, b: nat)
    requires a < 16 && b < 16 && ApertName(a) == ApertName(b)
    ensures a == b
  {
    assert HexUpper(a) == ApertName(a)[1] && HexUpper(b) == ApertName(b)[1];
  }

  /**
   * The column type of the unknown type's columns: `'id'` then the numbers
   * 1 to 99, one hundred columns.
   */
  lemma UnknownLayout()
    ensures |UnknownFile.columns| == 100 && UnknownFile.columns[0] == N("id")
    ensures forall k :: 1 <= k < 100 ==> UnknownFile.columns[k] == Number(k)
  {
  }

  /**
   * The aperture file is the first row's fifteen columns followed by the
   * second row's fifteen, and no column name occurs twice.
   */
  lemma ApFileLayout()
    ensures |ApFile.columns| == 30
    ensures ApFile.columns[..4] == [N("id"), N("x"), N("y"), N("mag")]
    ensures ApFile.columns[15..19] == [N("sky"), N("sky_err"), N("sky_skew"), N("mag_err")]
    ensures forall k :: 4 <= k < 15 ==> ApFile.columns[k] == N(ApertName(k - 2))
    ensures forall k :: 19 <= k < 30 ==> ApFile.columns[k] == N(ApertErrName(k - 17))
    ensures AllDistinct(ApFile.columns)
  {
    var h1, h2 := [N("id"), N("x"), N("y"), N("mag")], [N("sky"), N("sky_err"), N("sky_skew"), N("mag_err")];
    var ac, ec := ApertCols(), ApertErrCols();
    assert ApFile.columns == (h1 + ac) + (h2 + ec);
    TwoRows(h1, ac, h2, ec);
    LayoutDistinct(ApFile.columns);
  }

  /** Where the pieces of two rows, each a head and a tail of the same lengths, sit in their concatenation. */
  lemma TwoRows<T>(h1: seq<T>, t1: seq<T>, h2: seq<T>, t2: seq<T>)
    requires |h1| == |h2| && |t1| == |t2|
    ensures var c, n := (h1 + t1) + (h2 + t2), |h1| + |t1|;
      |c| == 2 * n && c[..|h1|] == h1 && c[n..n + |h2|] == h2 &&
      (forall k :: |h1| <= k < n ==> c[k] == t1[k - |h1|]) &&
      (forall k :: n + |h2| <= k < 2 * n ==> c[k] == t2[k - n - |h2|])
  {
  }

  /** Thirty columns laid out as the aperture file's are all different. */
  lemma LayoutDistinct(c: seq<Col>)
    requires |c| == 30
    requires c[..4] == [N("id"), N("x"), N("y"), N("mag")]
    requires c[15..19] == [N("sky"), N("sky_err"), N("sky_skew"), N("mag_err")]
    requires forall k :: 4 <= k < 15 ==> c[k] == N(ApertName(k - 2))
    requires forall k :: 19 <= k < 30 ==> c[k] == N(ApertErrName(k - 17))
    ensures AllDistinct(c)
  {
    forall i, j | 0 <= i < j < |c|
      ensures c[i] != c[j]
    {
      if i < 4 || 15 <= i < 19 {
        assert c[i].name[0] != 'A' by {
          if i < 4 { assert c[i] == c[..4][i]; } else { assert c[i] == c[15..19][i - 15]; }
        }
        if j < 4 || 15 <= j < 19 {
          if j < 4 { assert c[j] == c[..4][j]; } else { assert c[j] == c[15..19][j - 15]; }
          if i < 4 { assert c[i] == c[..4][i]; } else { assert c[i] == c[15..19][i - 15]; }
        }
      } else if 4 <= i < 15 && 4 <= j < 15 {
        if c[i] == c[j] {
          ApertNameInjective(i - 2, j - 2);
        }
      } else if 19 <= i && 19 <= j {
        if c[i] == c[j] {
          assert ApertErrName(i - 17)[..2] == ApertName(i - 17);
          assert ApertErrName(j - 17)[..2] == ApertName(j - 17);
          ApertNameInjective(i - 17, j - 17);
        }
      }
    }
  }

  /** No two pairs share a key. */
  predicate KeysDistinct<K(==), V>(ps: seq<(K, V)>)
  {
    forall i, j :: 0 <= i < j < |ps| ==> ps[i].0 != ps[j].0
  }

  /** When no key repeats, the dictionary maps each pair's key to that pair's value. */
  lemma {:induction false} DictOfLookup<K, V>(ps: seq<(K, V)>)
    requires KeysDistinct(ps)
    ensures forall i :: 0 <= i < |ps| ==> ps[i].0 in DictOf(ps) && DictOf(ps)[ps[i].0] == ps[i].1
  {
    if ps != [] {
      var init := ps[..|ps| - 1];
      assert forall i :: 0 <= i < |init| ==> init[i] == ps[i];
      DictOfLookup(init);
      forall i | 0 <= i < |ps|
        ensures DictOf(ps)[ps[i].0] == ps[i].1
      {
        if i < |init| {
          assert ps[i].0 != ps[|ps| - 1].0;
          assert init[i] == ps[i];
        }
      }
    }
  }

  /** No aperture, and no aperture error, column is listed twice. */
  lemma ApertPairsDistinct()
    ensures KeysDistinct(ApertPairs()) && KeysDistinct(ApertErrPairs())
  {
    var ap, er := ApertPairs(), ApertErrPairs();
    forall i, j | 0 <= i < j < |ap|
      ensures ap[i].0 != ap[j].0 && er[i].0 != er[j].0
    {
      assert ApertName(i + 2)[1] == HexUpper(i + 2) != HexUpper(j + 2) == ApertName(j + 2)[1];
      assert ApertErrName(i + 2)[1] == HexUpper(i + 2) && ApertErrName(j + 2)[1] == HexUpper(j + 2);
    }
  }

  /**
   * `DAO._apert_columns` holds exactly the columns `A2` to `AC`, each with
   * its aperture type.
   */
  lemma ApertColumnsLookup()
    ensures forall n :: 2 <= n < 13 ==> ByCol(N(ApertName(n))) in ApertColumns()
    ensures forall n :: 2 <= n < 13 ==> ApertColumns()[ByCol(N(ApertName(n)))] == ApertType(n)
    ensures forall key :: key in ApertColumns() ==> exists n :: 2 <= n < 13 && key == ByCol(N(ApertName(n)))
  {
    var ap := ApertPairs();
    ApertPairsDistinct();
    DictOfLookup(ap);
    forall n | 2 <= n < 13
      ensures ByCol(N(ApertName(n))) in ApertColumns() && ApertColumns()[ByCol(N(ApertName(n)))] == ApertType(n)
    {
      assert ap[n - 2] == (ByCol(N(ApertName(n))), ApertType(n));
    }
    forall key | key in ApertColumns()
      ensures exists n :: 2 <= n < 13 && key == ByCol(N(ApertName(n)))
    {
      var i :| 0 <= i < |ap| && ap[i].0 == key;
      assert key == ByCol(N(ApertName(i + 2)));
    }
  }

  /**
   * `DAO._ap_err_columns` holds exactly the columns `A2_err` to `AC_err`,
   * each with its aperture error type.
   */
  lemma ApertErrColumnsLookup()
    ensures forall n :: 2 <= n < 13 ==> ByCol(N(ApertErrName(n))) in ApertErrColumns()
    ensures forall n :: 2 <= n < 13 ==> ApertErrColumns()[ByCol(N(ApertErrName(n)))] == ApertErrType(n)
    ensures forall key :: key in ApertErrColumns() ==> exists n :: 2 <= n < 13 && key == ByCol(N(ApertErrName(n)))
  {
    var er := ApertErrPairs();
    ApertPairsDistinct();
    DictOfLookup(er);
    forall n | 2 <= n < 13
      ensures ByCol(N(ApertErrName(n))) in ApertErrColumns() && ApertErrColumns()[ByCol(N(ApertErrName(n)))] == ApertErrType(n)
    {
      assert er[n - 2] == (ByCol(N(ApertErrName(n))), ApertErrType(n));
    }
    forall key | key in ApertErrColumns()
      ensures exists n :: 2 <= n < 13 && key == ByCol(N(ApertErrName(n)))
    {
      var i :| 0 <= i < |er| && er[i].0 == key;
      assert key == ByCol(N(ApertErrName(i + 2)));
    }
  }

  /**
   * The three dictionaries chained into `DAO.columns` share no key, so the
   * chaining loses no entry: each key keeps the type its own dictionary gives
   * it, and a column type is optional exactly when it is an aperture or
   * aperture error column.
   */
  lemma ColumnsChained()
    ensures StaticColumns.Keys !! ApertColumns().Keys
    ensures StaticColumns.Keys !! ApertErrColumns().Keys
    ensures ApertColumns().Keys !! ApertErrColumns().Keys
    ensures Columns().Keys == StaticColumns.Keys + ApertColumns().Keys + ApertErrColumns().Keys
    ensures forall key :: key in StaticColumns ==> Columns()[key] == StaticColumns[key]
    ensures forall key :: key in ApertColumns() ==> Columns()[key] == ApertColumns()[key]
    ensures forall key :: key in ApertErrColumns() ==> Columns()[key] == ApertErrColumns()[key]
    ensures forall key :: key in Columns() ==>
      (Columns()[key].optional <==> key in ApertColumns() || key in ApertErrColumns())
  {
    ApertColumnsLookup();
    ApertErrColumnsLookup();
    forall key | key in ApertColumns()
      ensures ApertKey(key, 2) && ApertColumns()[key].optional
    {
      var n :| 2 <= n < 13 && key == ByCol(N(ApertName(n)));
    }
    forall key | key in ApertErrColumns()
      ensures ApertKey(key, 6) && ApertErrColumns()[key].optional
    {
      var n :| 2 <= n < 13 && key == ByCol(N(ApertErrName(n)));
    }
    StaticKeys();
    Chained(StaticColumns, ApertColumns(), ApertErrColumns());
  }

  /** A key naming an aperture-style column, `A` followed by `len - 1` more characters. */
  predicate ApertKey(key: ColKey, len: nat)
  {
    key.ByCol? && key.col.Name? && 0 < len == |key.col.name| && key.col.name[0] == 'A'
  }

  /** No static column is optional and none is named like an aperture column. */
  lemma StaticKeys()
    ensures forall key :: key in StaticColumns ==> !StaticColumns[key].optional && !ApertKey(key, 2) && !ApertKey(key, 6)
  {
  }

  /** Chaining three dictionaries whose keys are told apart by their shape. */
  lemma Chained(s: map<ColKey, CType>, a: map<ColKey, CType>, e: map<ColKey, CType>)
    requires forall key :: key in s ==> !s[key].optional && !ApertKey(key, 2) && !ApertKey(key, 6)
    requires forall key :: key in a ==> ApertKey(key, 2) && a[key].optional
    requires forall key :: key in e ==> ApertKey(key, 6) && e[key].optional
    ensures s.Keys !! a.Keys && s.Keys !! e.Keys && a.Keys !! e.Keys
    ensures (s + a + e).Keys == s.Keys + a.Keys + e.Keys
    ensures forall key :: key in s ==> (s + a + e)[key] == s[key]
    ensures forall key :: key in a ==> (s + a + e)[key] == a[key]
    ensures forall key :: key in e ==> (s + a + e)[key] == e[key]
    ensures forall key :: key in s + a + e ==> ((s + a + e)[key].optional <==> key in a || key in e)
  {
  }
}
