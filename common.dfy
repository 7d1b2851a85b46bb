/**
 * Values shared by every part of the model: Python's `None`, the exceptions the
 * source raises, and the few string operations of Python's `str` that the source
 * relies on (ASCII only: the tool output is decoded as ASCII).
 */
module Common {

  datatype Option<T> = None | Some(value: T)

  /** The exceptions raised by the modelled code, by Python class. */
  datatype Error =
    | RuntimeError(msg: string)      // a bare `Exception(msg)`
    | RunnerException(msg: string)
    | RunnerTypeError(msg: string)
    | ExitError(code: int)
    | OSError(path: string)
    | TypeError(msg: string)
    | KeyError(key: string)
    | ValueError(msg: string)
    | AttributeError(msg: string)
    | IndexError(index: int)
    | UnicodeEncodeError(position: nat)  // `'ascii' codec can't encode` the character there
    | UnicodeDecodeError(position: nat)  // `'ascii' codec can't decode` the byte there

  datatype Result<T> = Ok(value: T) | Err(error: Error)

  /**
   * The number a numeric text denotes, exactly: `mantissa` times ten to the
   * power `exponent`, as the text writes it.
   */
  datatype Decimal = Decimal(mantissa: int, exponent: int)

  /** The outcome of a call that returns nothing: it either returns or raises. */
  datatype Outcome = Pass | Fail(error: Error)

  /** Concatenation of a list of strings, `''.join(ss)`. */
  function Concat(ss: seq<string>): string
  {
    if ss == [] then "" else ss[0] + Concat(ss[1..])
  }

  lemma {:induction false} ConcatAppend(a: seq<string>, b: seq<string>)
    ensures Concat(a + b) == Concat(a) + Concat(b)
  {
    if a == [] {
      assert a + b == b;
    } else {
      assert (a + b)[1..] == a[1..] + b;
      ConcatAppend(a[1..], b);
    }
  }

  /** No element occurs twice. */
  predicate AllDistinct<T(==)>(s: seq<T>)
  {
    forall i, j :: 0 <= i < j < |s| ==> s[i] != s[j]
  }

  /** Concatenation is associative; stated once so that long concatenations can be regrouped cheaply. */
  lemma ConcatAssoc<T>(a: seq<T>, b: seq<T>, c: seq<T>)
    ensures a + (b + c) == a + b + c
  {
  }

  /** One more element of `s` extends its prefix. */
  lemma PrefixExtends<T>(s: seq<T>, i: nat)
    requires i < |s|
    ensures s[..i] + [s[i]] == s[..i + 1]
  {
  }

  /** A sequence is its prefix followed by the rest. */
  lemma SplitJoins<T>(s: seq<T>, i: nat)
    requires i <= |s|
    ensures s[..i] + s[i..] == s
  {
  }

  /** A non-empty sequence is its front followed by its last element. */
  lemma InitLast<T>(s: seq<T>)
    requires s != []
    ensures s == s[..|s| - 1] + [s[|s| - 1]]
  {
  }

  lemma ConcatSnoc(a: seq<string>, s: string)
    ensures Concat(a + [s]) == Concat(a) + s
  {
    ConcatAppend(a, [s]);
    assert Concat([s]) == s + Concat([]);
  }

  /** `\s` of Python's `re` on the ASCII range. */
  predicate IsSpace(c: char)
  {
    c == ' ' || c == '\t' || c == '\n' || c == '\r' || c == '\U{B}' || c == '\U{C}'
    || c == '\U{1C}' || c == '\U{1D}' || c == '\U{1E}' || c == '\U{1F}'
  }

  /**
   * The separators of `str.split()` with no argument: the characters
   * `str.isspace()` holds for, the ASCII ones above and U+0085, U+00A0,
   * U+1680, U+2000 to U+200A, U+2028, U+2029, U+202F, U+205F and U+3000.
   */
  predicate IsSplitSpace(c: char)
  {
    IsSpace(c) || c == '\U{85}' || c == '\U{A0}' || c == '\U{1680}'
    || ('\U{2000}' <= c <= '\U{200A}') || c == '\U{2028}' || c == '\U{2029}'
    || c == '\U{202F}' || c == '\U{205F}' || c == '\U{3000}'
  }

  /** `\d` of Python's `re` on the ASCII range. */
  predicate IsDigit(c: char)
  {
    '0' <= c <= '9'
  }

  /** `\w` of Python's `re` on the ASCII range. */
  predicate IsWordChar(c: char)
  {
    IsDigit(c) || 'a' <= c <= 'z' || 'A' <= c <= 'Z' || c == '_'
  }

  function UpperChar(c: char): char
  {
    if 'a' <= c <= 'z' then (c as int - 'a' as int + 'A' as int) as char else c
  }

  /** `s.upper()` on ASCII text. */
  function Upper(s: string): (r: string)
    ensures |r| == |s|
    ensures forall i :: 0 <= i < |s| ==> r[i] == UpperChar(s[i])
  {
    if s == [] then [] else [UpperChar(s[0])] + Upper(s[1..])
  }

  /** `s[:n]` for a non-negative `n`: Python clamps the bound to the length. */
  function Take(s: string, n: nat): (r: string)
  {
    if n <= |s| then s[..n] else s
  }

  /** `sub` occurs in `s` starting at index `i`. */
  predicate OccursAt(s: string, sub: string, i: nat)
  {
    i + |sub| <= |s| && s[i..i + |sub|] == sub
  }

  /** Leftmost occurrence of `sub` in `s` at or after `i`: `s.find(sub, i)`. */
  function FindFrom(s: string, sub: string, i: nat): (r: Option<nat>)
    ensures r.Some? ==> i <= r.value && OccursAt(s, sub, r.value)
    ensures r.Some? ==> forall j :: i <= j < r.value ==> !OccursAt(s, sub, j)
    ensures r.None? ==> forall j :: i <= j ==> !OccursAt(s, sub, j)
    decreases |s| - i
  {
    if i + |sub| > |s| then None
    else if OccursAt(s, sub, i) then Some(i)
    else FindFrom(s, sub, i + 1)
  }

  /** `sub in s`. */
  predicate Contains(s: string, sub: string)
  {
    FindFrom(s, sub, 0).Some?
  }

  /** The character classes of the source's patterns and string splits. */
  datatype CharClass =
    | Digit       // `\d`, `[0-9]`
    | Word        // `\w`
    | Blank       // a literal space
    | Prompt      // `>`
    | Space       // `\s`
    | NotEqNewline  // `[^=\n]`
    | NotNewline  // anything but a line break
    | NotSlash    // anything but `/`

  predicate InClass(k: CharClass, c: char)
  {
    match k
    case Digit => IsDigit(c)
    case Word => IsWordChar(c)
    case Blank => c == ' '
    case Prompt => c == '>'
    case Space => IsSpace(c)
    case NotEqNewline => c != '=' && c != '\n'
    case NotNewline => c != '\n'
    case NotSlash => c != '/'
  }

  /** Length of the longest run of characters of class `k` in `t` from index `i` on. */
  function Run(t: string, i: nat, k: CharClass): (n: nat)
    requires i <= |t|
    ensures i + n <= |t|
    decreases |t| - i
  {
    if i == |t| || !InClass(k, t[i]) then 0 else 1 + Run(t, i + 1, k)
  }

  /** Every character of the run is of the class, and the one after it is not. */
  lemma {:induction false} RunAll(t: string, i: nat, k: CharClass)
    requires i <= |t|
    ensures forall j :: i <= j < i + Run(t, i, k) ==> InClass(k, t[j])
    ensures i + Run(t, i, k) < |t| ==> !InClass(k, t[i + Run(t, i, k)])
    decreases |t| - i
  {
    if i < |t| && InClass(k, t[i]) {
      RunAll(t, i + 1, k);
    }
  }

  /** The run is exactly `n` long when `n` characters of the class end at one that is not. */
  lemma {:induction false} RunOf(t: string, i: nat, n: nat, k: CharClass)
    requires i + n <= |t|
    requires forall j :: i <= j < i + n ==> InClass(k, t[j])
    requires i + n == |t| || !InClass(k, t[i + n])
    ensures Run(t, i, k) == n
    decreases n
  {
    if n > 0 {
      RunOf(t, i + 1, n - 1, k);
    }
  }

  /** Cutting `t` at `n` cuts the run there too. */
  lemma {:induction false} RunTake(t: string, i: nat, n: nat, k: CharClass)
    requires i <= n <= |t|
    ensures Run(t[..n], i, k) == if i + Run(t, i, k) <= n then Run(t, i, k) else n - i
    decreases n - i
  {
    if i < n && InClass(k, t[i]) {
      RunTake(t, i + 1, n, k);
    }
  }

  /** A run inside the left part of a concatenation that stops there is not extended by the right part. */
  lemma {:induction false} RunAppend(a: string, b: string, i: nat, k: CharClass)
    requires i <= |a|
    requires i + Run(a, i, k) < |a| || b == [] || !InClass(k, b[0])
    ensures Run(a + b, i, k) == Run(a, i, k)
    decreases |a| - i
  {
    if i < |a| && InClass(k, a[i]) {
      RunAppend(a, b, i + 1, k);
    } else if i == |a| {
      assert b == [] || (a + b)[i] == b[0];
    }
  }

  /** The run at the start of `a + b` is all of `a` when `a` is of the class and `b` does not start with it. */
  lemma RunWhole(a: string, b: string, k: CharClass)
    requires forall j :: 0 <= j < |a| ==> InClass(k, a[j])
    requires b == [] || !InClass(k, b[0])
    ensures Run(a + b, 0, k) == |a|
  {
    RunOf(a, 0, |a|, k);
    RunAppend(a, b, 0, k);
  }

  /** A run in the right part of a concatenation, seen from the whole. */
  lemma {:induction false} RunShift(a: string, b: string, j: nat, k: CharClass)
    requires j <= |b|
    ensures Run(a + b, |a| + j, k) == Run(b, j, k)
    decreases |b| - j
  {
    if j < |b| {
      assert (a + b)[|a| + j] == b[j];
      RunShift(a, b, j + 1, k);
    }
  }

  /** A run in a slice is the run of the whole, cut at the slice's end. */
  lemma {:induction false} RunSlice(t: string, p: nat, q: nat, i: nat, k: CharClass)
    requires p <= q <= |t| && i <= q - p
    ensures Run(t[p..q], i, k) == if p + i + Run(t, p + i, k) <= q then Run(t, p + i, k) else q - p - i
    decreases q - p - i
  {
    if i < q - p && InClass(k, t[p + i]) {
      RunSlice(t, p, q, i + 1, k);
    }
  }

  /** Text of `s` from `j` agrees with `u`; a run there is the run in `u` unless it reaches the end of `u`. */
  lemma {:induction false} RunAgree(s: string, u: string, j: nat, i: nat, k: CharClass)
    requires j + |u| <= |s| && s[j..j + |u|] == u && i <= |u|
    requires i + Run(u, i, k) < |u| || j + |u| == |s| || !InClass(k, s[j + |u|])
    ensures Run(s, j + i, k) == Run(u, i, k)
    decreases |u| - i
  {
    if i < |u| {
      assert s[j + i] == u[i];
      if InClass(k, u[i]) {
        RunAgree(s, u, j, i + 1, k);
      }
    }
  }

  /** A run of digits, cut out, is all digits. */
  lemma RunDigits(s: string, j: nat)
    requires j <= |s|
    ensures AllDigits(s[j..j + Run(s, j, Digit)])
  {
    RunAll(s, j, Digit);
    var t := s[j..j + Run(s, j, Digit)];
    assert forall m :: 0 <= m < |t| ==> t[m] == s[j + m];
  }

  /** A text of the class, copied into `s` at `j` and not followed there by the class, is the run at `j`. */
  lemma RunOfText(s: string, j: nat, u: string, k: CharClass)
    requires j + |u| <= |s| && s[j..j + |u|] == u
    requires forall m :: 0 <= m < |u| ==> InClass(k, u[m])
    requires j + |u| == |s| || !InClass(k, s[j + |u|])
    ensures Run(s, j, k) == |u|
  {
    RunOf(u, 0, |u|, k);
    RunAgree(s, u, j, 0, k);
  }

  /** What follows a known prefix of a suffix of `s`. */
  lemma DropPrefix(s: string, i: nat, a: string, b: string)
    requires i <= |s| && s[i..] == a + b
    ensures i + |a| <= |s| && s[i + |a|..] == b
  {
    assert s[i + |a|..] == (a + b)[|a|..];
  }

  /** Regrouping four pieces. */
  lemma ConcatAssoc4<T>(a: seq<T>, b: seq<T>, c: seq<T>, d: seq<T>)
    ensures a + (b + (c + d)) == (a + (b + c)) + d
  {
    assert a + (b + (c + d)) == a + b + c + d;
  }

  /** A text holding `a + b` at `i` holds `a` there and `b` right after it. */
  lemma TakePrefix(s: string, i: nat, a: string, b: string)
    requires i <= |s| && s[i..] == a + b
    ensures i + |a| <= |s| && s[i..i + |a|] == a && s[i + |a|..] == b
    ensures |a| > 0 ==> s[i] == a[0]
  {
    assert s[i..i + |a|] == (a + b)[..|a|];
    assert s[i + |a|..] == (a + b)[|a|..];
  }

  predicate AllDigits(t: string)
  {
    forall k :: 0 <= k < |t| ==> IsDigit(t[k])
  }

  function DigitValue(c: char): nat
  {
    if IsDigit(c) then c as int - '0' as int else 0
  }

  /** `int(s)` for a string of decimal digits. */
  function DecimalValue(s: string): nat
  {
    if s == [] then 0 else DecimalValue(s[..|s| - 1]) * 10 + DigitValue(s[|s| - 1])
  }

  function DigitChar(d: nat): (c: char)
    requires d < 10
    ensures IsDigit(c) && DigitValue(c) == d
  {
    ('0' as int + d) as char
  }

  /** `str(n)` for a natural number. */
  function NatText(n: nat): (s: string)
    ensures |s| > 0
    ensures forall i :: 0 <= i < |s| ==> IsDigit(s[i])
    ensures DecimalValue(s) == n
  {
    if n < 10 then [DigitChar(n)]
    else
      var s := NatText(n / 10) + [DigitChar(n % 10)];
      assert s[..|s| - 1] == NatText(n / 10);
      s
  }

  /** The lines an `io.StringIO` yields when iterated: each keeps its `'\n'`. */
  function SplitLines(t: string): (lines: seq<string>)
    ensures Concat(lines) == t
    ensures forall k :: 0 <= k < |lines| ==> lines[k] != ""
    ensures forall k :: 0 <= k < |lines| - 1 ==> lines[k][|lines[k]| - 1] == '\n'
    ensures forall k, j :: 0 <= k < |lines| && 0 <= j < |lines[k]| - 1 ==> lines[k][j] != '\n'
    decreases |t|
  {
    if t == "" then []
    else
      var n := Run(t, 0, NotNewline);
      FirstLine(t);
      if n == |t| then [t]
      else
        var rest := SplitLines(t[n + 1..]);
        LinesCons(t[..n + 1], rest);
        [t[..n + 1]] + rest
  }

  /** The first line of a text: all of it when it holds no line break, else up to and including the first. */
  lemma FirstLine(t: string)
    requires t != ""
    ensures var n := Run(t, 0, NotNewline);
      (n == |t| ==> forall j :: 0 <= j < |t| ==> t[j] != '\n') &&
      (n < |t| ==> IsLine(t[..n + 1]) && t[..n + 1] + t[n + 1..] == t)
  {
    var n := Run(t, 0, NotNewline);
    assert forall j :: 0 <= j < n ==> t[j] != '\n' by {
      RunAll(t, 0, NotNewline);
      assert forall j :: 0 <= j < n ==> InClass(NotNewline, t[j]);
    }
    if n < |t| {
      assert t[n] == '\n' by {
        RunAll(t, 0, NotNewline);
      }
      LineUpTo(t, n);
    }
  }

  /** The text up to a line break with none before it is a line. */
  lemma LineUpTo(t: string, n: nat)
    requires n < |t| && t[n] == '\n' && forall j :: 0 <= j < n ==> t[j] != '\n'
    ensures IsLine(t[..n + 1]) && t[..n + 1] + t[n + 1..] == t
  {
    var first := t[..n + 1];
    assert first[n] == '\n';
    assert forall j :: 0 <= j < n ==> first[j] == t[j];
  }

  /** A line in front of lines shaped as `SplitLines` returns them keeps that shape. */
  lemma LinesCons(first: string, rest: seq<string>)
    requires IsLine(first)
    requires forall k :: 0 <= k < |rest| ==> rest[k] != ""
    requires forall k :: 0 <= k < |rest| - 1 ==> rest[k][|rest[k]| - 1] == '\n'
    requires forall k, j :: 0 <= k < |rest| && 0 <= j < |rest[k]| - 1 ==> rest[k][j] != '\n'
    ensures var lines := [first] + rest;
      Concat(lines) == first + Concat(rest) &&
      (forall k :: 0 <= k < |lines| ==> lines[k] != "") &&
      (forall k :: 0 <= k < |lines| - 1 ==> lines[k][|lines[k]| - 1] == '\n') &&
      (forall k, j :: 0 <= k < |lines| && 0 <= j < |lines[k]| - 1 ==> lines[k][j] != '\n')
  {
    var lines := [first] + rest;
    assert lines[1..] == rest;
    assert forall k :: 1 <= k < |lines| ==> lines[k] == rest[k - 1];
  }


  /** A line as `io.StringIO` yields it when more text follows: one `'\n'`, at its end. */
  predicate IsLine(l: string)
  {
    |l| > 0 && l[|l| - 1] == '\n' && forall j :: 0 <= j < |l| - 1 ==> l[j] != '\n'
  }

  /** A full line in front of a text is the first line read. */
  lemma SplitLinesCons(l: string, rest: string)
    requires IsLine(l)
    ensures SplitLines(l + rest) == [l] + SplitLines(rest)
  {
    var t := l + rest;
    assert forall j :: 0 <= j < |l| - 1 ==> InClass(NotNewline, t[j]) by {
      forall j | 0 <= j < |l| - 1
        ensures InClass(NotNewline, t[j])
      {
        assert t[j] == l[j];
      }
    }
    assert t[|l| - 1] == '\n';
    RunOf(t, 0, |l| - 1, NotNewline);
    assert t[..|l|] == l;
    assert t[|l|..] == rest;
  }

  /** A text without a line break is read as one line. */
  lemma SplitLinesLast(l: string)
    requires l != "" && '\n' !in l
    ensures SplitLines(l) == [l]
  {
    assert forall j :: 0 <= j < |l| ==> InClass(NotNewline, l[j]);
    RunOf(l, 0, |l|, NotNewline);
  }
}
