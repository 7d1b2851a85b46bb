/**
 * Matching of two catalogues, `astwro.coord.CoordMatch`.
 *
 * Every object of catalogue A has a nearest object in catalogue B and a
 * separation from it. An object of A is matched when that separation is
 * below the match radius; the masks and index lists of the class split A and
 * B into matched and unmatched objects. The nearest-neighbour search itself is
 * an input, computed at most once and cached.
 */
module CoordMatching {
  import opened Common

  /** `sepAB < r_match`: the objects of A closer to their nearest object of B than `r`. */
  function Matched(sep: seq<real>, r: real): (m: seq<bool>)
    ensures |m| == |sep| && forall i :: 0 <= i < |sep| ==> (m[i] <==> sep[i] < r)
  {
    seq(|sep|, i requires 0 <= i < |sep| => sep[i] < r)
  }

  /** `~mask`. */
  function Not(m: seq<bool>): (r: seq<bool>)
    ensures |r| == |m| && forall i :: 0 <= i < |m| ==> r[i] == !m[i]
  {
    seq(|m|, i requires 0 <= i < |m| => !m[i])
  }

  /** Each element is smaller than the next. */
  predicate Increasing(s: seq<nat>)
  {
    forall j, k :: 0 <= j < k < |s| ==> s[j] < s[k]
  }

  /** The positions from `from` on where the mask holds, in order. */
  function WhereFrom(m: seq<bool>, from: nat): (r: seq<nat>)
    requires from <= |m|
    ensures Increasing(r)
    ensures forall k :: 0 <= k < |r| ==> from <= r[k] < |m| && m[r[k]]
    ensures forall i :: from <= i < |m| && m[i] ==> i in r
    decreases |m| - from
  {
    if from == |m| then []
    else if m[from] then [from] + WhereFrom(m, from + 1)
    else WhereFrom(m, from + 1)
  }

  /** `np.arange(len(m))[m]`: the positions where the mask holds, in order. */
  function Where(m: seq<bool>): (r: seq<nat>)
    ensures Increasing(r)
    ensures forall k :: 0 <= k < |r| ==> r[k] < |m| && m[r[k]]
    ensures forall i :: 0 <= i < |m| && m[i] ==> i in r
  {
    WhereFrom(m, 0)
  }

  /** `xs[m]`: the elements where the mask holds, in order. */
  function Pick(xs: seq<nat>, m: seq<bool>): (r: seq<nat>)
    requires |xs| == |m|
    ensures var w := Where(m); |r| == |w| && forall k :: 0 <= k < |r| ==> r[k] == xs[w[k]]
  {
    var w := Where(m);
    seq(|w|, k requires 0 <= k < |w| => xs[w[k]])
  }

  /** `r = np.zeros(n, dtype=bool); r[idx] = True`. */
  function MaskAt(idx: seq<nat>, n: nat): (m: seq<bool>)
    ensures |m| == n && forall b :: 0 <= b < n ==> (m[b] <==> b in idx)
  {
    seq(n, b requires 0 <= b < n => b in idx)
  }

  /** The increasing list `s` with `x` put in its place, once. */
  function Insert(x: nat, s: seq<nat>): (r: seq<nat>)
    requires Increasing(s)
    ensures Increasing(r) && forall y :: y in r <==> y == x || y in s
  {
    if s == [] then [x]
    else if x < s[0] then [x] + s
    else if x == s[0] then s
    else
      var rest := Insert(x, s[1..]);
      assert forall y :: y in s <==> y == s[0] || y in s[1..];
      assert forall y :: y in s[1..] ==> s[0] < y;
      assert forall k :: 0 <= k < |rest| ==> rest[k] in rest;
      [s[0]] + rest
  }

  /** `np.unique(s)`: the distinct elements of `s`, increasing. */
  function Unique(s: seq<nat>): (r: seq<nat>)
    ensures Increasing(r) && forall y :: y in r <==> y in s
  {
    if s == [] then []
    else
      assert forall y :: y in s <==> y == s[0] || y in s[1..];
      Insert(s[0], Unique(s[1..]))
  }

  /** The lists of `CoordMatch`, over the cached nearest neighbours. */
  function IAB(sep: seq<real>, r: real): seq<nat> { Where(Matched(sep, r)) }

  function IAonly(sep: seq<real>, r: real): seq<nat> { Where(Not(Matched(sep, r))) }

  function MappediBA(nearest: seq<nat>, sep: seq<real>, r: real): seq<nat>
    requires |nearest| == |sep|
  {
    Pick(nearest, Matched(sep, r))
  }

  function IBA(nearest: seq<nat>, sep: seq<real>, r: real): seq<nat>
    requires |nearest| == |sep|
  {
    Unique(MappediBA(nearest, sep, r))
  }

  /** The nearest neighbours are objects of B. */
  predicate IntoB(nearest: seq<nat>, lenB: nat)
  {
    forall i :: 0 <= i < |nearest| ==> nearest[i] < lenB
  }

  function MBA(nearest: seq<nat>, sep: seq<real>, r: real, lenB: nat): (m: seq<bool>)
    requires |nearest| == |sep|
  {
    MaskAt(IBA(nearest, sep, r), lenB)
  }

  function IBonly(nearest: seq<nat>, sep: seq<real>, r: real, lenB: nat): seq<nat>
    requires |nearest| == |sep|
  {
    Where(Not(MBA(nearest, sep, r, lenB)))
  }

  /** `iBA` names objects of B, exactly those nearest to a matched object of A. */
  lemma IBAInB(nearest: seq<nat>, sep: seq<real>, r: real, lenB: nat)
    requires |nearest| == |sep| && IntoB(nearest, lenB)
    ensures var iba := IBA(nearest, sep, r);
      Increasing(iba) && forall k :: 0 <= k < |iba| ==> iba[k] < lenB
    ensures forall b :: b in IBA(nearest, sep, r) <==> exists i :: 0 <= i < |sep| && sep[i] < r && nearest[i] == b
  {
    var m := Matched(sep, r);
    var w := Where(m);
    var p := MappediBA(nearest, sep, r);
    forall b | b in IBA(nearest, sep, r)
      ensures exists i :: 0 <= i < |sep| && sep[i] < r && nearest[i] == b
    {
      var k :| 0 <= k < |p| && p[k] == b;
      assert nearest[w[k]] == b && m[w[k]];
    }
    forall b, i | 0 <= i < |sep| && sep[i] < r && nearest[i] == b
      ensures b in IBA(nearest, sep, r)
    {
      assert i in w;
      var k :| 0 <= k < |w| && w[k] == i;
      assert p[k] == b;
    }
    var iba := IBA(nearest, sep, r);
    forall k | 0 <= k < |iba|
      ensures iba[k] < lenB
    {
      assert iba[k] in p;
      var j :| 0 <= j < |p| && p[j] == iba[k];
      assert nearest[w[j]] == iba[k];
    }
  }

  /** `iAB` and `iAonly` are increasing and split the objects of A between them. */
  lemma ASplit(sep: seq<real>, r: real)
    ensures Increasing(IAB(sep, r)) && Increasing(IAonly(sep, r))
    ensures forall i :: 0 <= i < |sep| ==> (i in IAB(sep, r) <==> sep[i] < r)
    ensures forall i :: 0 <= i < |sep| ==> (i in IAonly(sep, r) <==> !(sep[i] < r))
    ensures forall i :: i in IAB(sep, r) + IAonly(sep, r) <==> 0 <= i < |sep|
  {
    var m := Matched(sep, r);
    var ab := IAB(sep, r);
    var only := IAonly(sep, r);
    forall i | i in ab
      ensures 0 <= i < |sep| && sep[i] < r
    {
      var k :| 0 <= k < |ab| && ab[k] == i;
    }
    forall i | i in only
      ensures 0 <= i < |sep| && !(sep[i] < r)
    {
      var k :| 0 <= k < |only| && only[k] == i;
    }
    forall i | 0 <= i < |sep|
      ensures i in ab + only
    {
      if sep[i] < r {
        assert i in ab;
      } else {
        assert Not(m)[i];
        assert i in only;
      }
    }
  }

  /** `mBA` holds exactly at `iBA`, and `iBonly` lists the other objects of B, in order. */
  lemma BSplit(nearest: seq<nat>, sep: seq<real>, r: real, lenB: nat)
    requires |nearest| == |sep|
    ensures var mba := MBA(nearest, sep, r, lenB);
      |mba| == lenB && forall b :: 0 <= b < lenB ==> (mba[b] <==> b in IBA(nearest, sep, r))
    ensures var only := IBonly(nearest, sep, r, lenB);
      Increasing(only) && forall b :: b in only <==> 0 <= b < lenB && b !in IBA(nearest, sep, r)
  {
    var mba := MBA(nearest, sep, r, lenB);
    var only := IBonly(nearest, sep, r, lenB);
    forall b | b in only
      ensures 0 <= b < lenB && b !in IBA(nearest, sep, r)
    {
      var k :| 0 <= k < |only| && only[k] == b;
      assert Not(mba)[b];
    }
    forall b | 0 <= b < lenB && b !in IBA(nearest, sep, r)
      ensures b in only
    {
      assert Not(mba)[b];
    }
  }

  /** The separations, in arc seconds and approximate, of the coordinates of `test_coordmatch.py`. */
  function ExampleSep(): seq<real> { [0.25, 115.0, 0.18, 0.18] }

  /** Their nearest neighbours in the five objects of B. */
  function ExampleNearest(): seq<nat> { [1, 1, 3, 1] }

  lemma WhereMatched()
    ensures Where([true, false, true, true]) == [0, 2, 3]
  {
    var m := [true, false, true, true];
    assert WhereFrom(m, 3) == [3];
    assert WhereFrom(m, 2) == [2, 3];
    assert WhereFrom(m, 1) == [2, 3];
  }

  lemma WhereUnmatched()
    ensures Where([false, true, false, false]) == [1]
  {
    var m := [false, true, false, false];
    assert WhereFrom(m, 3) == [];
    assert WhereFrom(m, 2) == [];
    assert WhereFrom(m, 1) == [1];
  }

  lemma WhereFreeB()
    ensures Where([true, false, true, false, true]) == [0, 2, 4]
  {
    var m := [true, false, true, false, true];
    assert WhereFrom(m, 4) == [4];
    assert WhereFrom(m, 3) == [4];
    assert WhereFrom(m, 2) == [2, 4];
    assert WhereFrom(m, 1) == [2, 4];
  }

  lemma ExampleA()
    ensures IAB(ExampleSep(), 0.5) == [0, 2, 3]
    ensures IAonly(ExampleSep(), 0.5) == [1]
  {
    var m := Matched(ExampleSep(), 0.5);
    assert m == [true, false, true, true];
    assert Not(m) == [false, true, false, false];
    WhereMatched();
    WhereUnmatched();
  }

  lemma UniqueExample()
    ensures Unique([1, 3, 1]) == [1, 3]
  {
    assert [1, 3, 1][1..] == [3, 1] && [3, 1][1..] == [1] && [1][1..] == [];
    assert Unique([1]) == Insert(1, []) == [1];
    assert Unique([3, 1]) == Insert(3, [1]) == [1, 3];
    assert Insert(1, [1, 3]) == [1, 3];
  }

  lemma ExampleIBA()
    ensures IBA(ExampleNearest(), ExampleSep(), 0.5) == [1, 3]
  {
    ExampleA();
    assert MappediBA(ExampleNearest(), ExampleSep(), 0.5) == [1, 3, 1];
    UniqueExample();
  }

  lemma MaskExample()
    ensures MaskAt([1, 3], 5) == [false, true, false, true, false]
  {
    var m := MaskAt([1, 3], 5);
    assert !m[0] && m[1] && !m[2] && m[3] && !m[4];
  }

  lemma NotExample()
    ensures Not([false, true, false, true, false]) == [true, false, true, false, true]
  {
    var m := Not([false, true, false, true, false]);
    assert m[0] && !m[1] && m[2] && !m[3] && m[4];
  }

  lemma ExampleMBA()
    ensures MBA(ExampleNearest(), ExampleSep(), 0.5, 5) == [false, true, false, true, false]
  {
    ExampleIBA();
    MaskExample();
  }

  lemma ExampleIBonly()
    ensures IBonly(ExampleNearest(), ExampleSep(), 0.5, 5) == [0, 2, 4]
  {
    ExampleMBA();
    NotExample();
    WhereFreeB();
  }

  /**
   * Four objects of A against five of B, as in `test_coordmatch.py`: only the
   * second object of A is farther than 0.5" from its nearest neighbour, and
   * the first, third and fifth objects of B are nobody's match.
   */
  lemma FourAgainstFive()
    ensures IAonly(ExampleSep(), 0.5) == [1]
    ensures IAB(ExampleSep(), 0.5) == [0, 2, 3]
    ensures IBA(ExampleNearest(), ExampleSep(), 0.5) == [1, 3]
    ensures IBonly(ExampleNearest(), ExampleSep(), 0.5, 5) == [0, 2, 4]
  {
    ExampleA();
    ExampleIBA();
    ExampleIBonly();
  }

  /**
   * The matcher, with the nearest-neighbour search of A in B given as
   * `nearest` and `separation` (in arc seconds) and a cache for its result.
   */
  class CoordMatch {
    const rMatch: real
    const rSep: real
    const lenA: nat
    const lenB: nat
    const nearest: seq<nat>
    const separation: seq<real>
    var abIdx: Option<seq<nat>>
    var abDist: Option<seq<real>>

    /** The search gives one neighbour per object of A, in B; a cached value is the search's. */
    ghost predicate Valid()
      reads this
    {
      |nearest| == |separation| == lenA && IntoB(nearest, lenB) &&
      (abIdx.Some? ==> abIdx.value == nearest) && (abDist.Some? ==> abDist.value == separation)
    }

    /** `CoordMatch(cooA, cooB, radius_match, radius_separated)`: the separation radius defaults to the match radius. */
    constructor(lenA: nat, lenB: nat, nearest: seq<nat>, separation: seq<real>,
                radiusMatch: real, radiusSeparated: Option<real>)
      requires |nearest| == |separation| == lenA && IntoB(nearest, lenB)
      ensures Valid() && abIdx.None? && abDist.None?
      ensures this.lenA == lenA && this.lenB == lenB && this.nearest == nearest && this.separation == separation
      ensures rMatch == radiusMatch && rSep == (if radiusSeparated.None? then radiusMatch else radiusSeparated.value)
    {
      this.lenA := lenA;
      this.lenB := lenB;
      this.nearest := nearest;
      this.separation := separation;
      rMatch := radiusMatch;
      rSep := if radiusSeparated.None? then radiusMatch else radiusSeparated.value;
      abIdx := None;
      abDist := None;
    }

    /** `_calc_diff`: runs the search and caches both its results. */
    method CalcDiff()
      requires Valid()
      modifies this
      ensures Valid() && abIdx == Some(nearest) && abDist == Some(separation)
    {
      abIdx := Some(nearest);
      abDist := Some(separation);
    }

    /** `sepAB`: the separations, searching only when none is cached. */
    method SepAB() returns (s: seq<real>)
      requires Valid()
      modifies this
      ensures Valid() && s == separation && abDist.Some?
      ensures old(abDist).Some? ==> abIdx == old(abIdx) && abDist == old(abDist)
    {
      if abDist.None? {
        CalcDiff();
      }
      s := abDist.value;
    }

    /** `mapAB`: the nearest neighbours, searching only when none is cached. */
    method MapAB() returns (m: seq<nat>)
      requires Valid()
      modifies this
      ensures Valid() && m == nearest && abIdx.Some?
      ensures old(abIdx).Some? ==> abIdx == old(abIdx) && abDist == old(abDist)
    {
      if abIdx.None? {
        CalcDiff();
      }
      m := abIdx.value;
    }

    /** `mAB`. */
    method MAB() returns (m: seq<bool>)
      requires Valid()
      modifies this
      ensures Valid() && m == Matched(separation, rMatch)
    {
      var s := SepAB();
      m := Matched(s, rMatch);
    }

    /** `mAonly`. */
    method MAonly() returns (m: seq<bool>)
      requires Valid()
      modifies this
      ensures Valid() && m == Not(Matched(separation, rMatch))
    {
      var ab := MAB();
      m := Not(ab);
    }

    /** `iAB`. */
    method IndexAB() returns (i: seq<nat>)
      requires Valid()
      modifies this
      ensures Valid() && i == IAB(separation, rMatch)
    {
      var ab := MAB();
      i := Where(ab);
    }

    /** `iAonly`. */
    method IndexAonly() returns (i: seq<nat>)
      requires Valid()
      modifies this
      ensures Valid() && i == IAonly(separation, rMatch)
    {
      var only := MAonly();
      i := Where(only);
    }

    /** `mappediBA`. */
    method MappedIndexBA() returns (i: seq<nat>)
      requires Valid()
      modifies this
      ensures Valid() && i == MappediBA(nearest, separation, rMatch)
    {
      var map_ := MapAB();
      var ab := MAB();
      i := Pick(map_, ab);
    }

    /** `iBA`. */
    method IndexBA() returns (i: seq<nat>)
      requires Valid()
      modifies this
      ensures Valid() && i == IBA(nearest, separation, rMatch)
    {
      var mapped := MappedIndexBA();
      i := Unique(mapped);
    }

    /** `mBA`. */
    method MBAMask() returns (m: seq<bool>)
      requires Valid()
      modifies this
      ensures Valid() && m == MBA(nearest, separation, rMatch, lenB)
    {
      var iba := IndexBA();
      m := MaskAt(iba, lenB);
    }

    /** `mBonly`. */
    method MBonly() returns (m: seq<bool>)
      requires Valid()
      modifies this
      ensures Valid() && m == Not(MBA(nearest, separation, rMatch, lenB))
    {
      var mba := MBAMask();
      m := Not(mba);
    }

    /** `iBonly`. */
    method IndexBonly() returns (i: seq<nat>)
      requires Valid()
      modifies this
      ensures Valid() && i == IBonly(nearest, separation, rMatch, lenB)
    {
      var only := MBonly();
      i := Where(only);
    }
  }
}
