/**
 * Price per litre for a fat percentage (`calculateRate`): an entry with
 * exactly that fat wins; otherwise the price is clamped to the ends of the
 * table, or interpolated linearly between the two neighbouring entries and
 * rounded to a whole number.
 */
module FatRates {
  import opened Common
  import opened Types

  /** `Array.prototype.find` on the fat key: the first entry whose fat equals `f`. */
  function FindExact(t: seq<FatRate>, f: real): (r: Option<FatRate>)
    ensures r.None? <==> forall k :: 0 <= k < |t| ==> t[k].fatPercentage != f
    ensures r.Some? ==> r.value in t && r.value.fatPercentage == f
    ensures r.Some? ==> forall k :: 0 <= k < FirstIndex(t, r.value) ==> t[k].fatPercentage != f
  {
    if t == [] then None
    else if t[0].fatPercentage == f then Some(t[0])
    else
      var r := FindExact(t[1..], f);
      assert r.Some? ==> t[0] != r.value && FirstIndex(t, r.value) == 1 + FirstIndex(t[1..], r.value);
      r
  }

  /** Position of the first occurrence of `x` in `t`. */
  function FirstIndex(t: seq<FatRate>, x: FatRate): (i: nat)
    requires x in t
    ensures i < |t| && t[i] == x && forall k :: 0 <= k < i ==> t[k] != x
  {
    if t[0] == x then 0 else 1 + FirstIndex(t[1..], x)
  }

  /** No two rows of the table share a fat percentage. */
  predicate DistinctFats(t: seq<FatRate>)
  {
    forall i, j :: 0 <= i < j < |t| ==> t[i].fatPercentage != t[j].fatPercentage
  }

  /** Two rows with the same fat are the same row. */
  lemma DistinctFatsSameRow(t: seq<FatRate>, x: FatRate, y: FatRate)
    requires DistinctFats(t) && x in t && y in t && x.fatPercentage == y.fatPercentage
    ensures x == y
  {
    var i :| 0 <= i < |t| && t[i] == x;
    var j :| 0 <= j < |t| && t[j] == y;
    assert !(i < j) && !(j < i);
  }

  /** The order `sort((a, b) => a.fatPercentage - b.fatPercentage)` establishes. */
  predicate ByFat(a: FatRate, b: FatRate)
  {
    a.fatPercentage <= b.fatPercentage
  }

  lemma ByFatIsTotal()
    ensures TotalPreorder(ByFat)
  {
  }

  /** The ascending copy of the table that `calculateRate` searches (its order: `SortByFatOrders`). */
  function SortByFat(t: seq<FatRate>): (s: seq<FatRate>)
    ensures |s| == |t|
  {
    ByFatIsTotal();
    SortBy(t, ByFat)
  }

  /** The sorted copy is a permutation of the table, ascending by fat. */
  lemma SortByFatOrders(t: seq<FatRate>)
    ensures multiset(SortByFat(t)) == multiset(t)
    ensures forall x :: x in SortByFat(t) <==> x in t
    ensures forall i, j :: 0 <= i < j < |SortByFat(t)| ==> SortByFat(t)[i].fatPercentage <= SortByFat(t)[j].fatPercentage
  {
    ByFatIsTotal();
    var s := SortBy(t, ByFat);
    forall x ensures x in s <==> x in t { SortByMembers(t, ByFat, x); }
  }

  /** `Math.round`: the nearest integer, halves rounded up. */
  function JsRound(x: real): (n: int)
    ensures (n as real) - 0.5 <= x < (n as real) + 0.5
  {
    (x + 0.5).Floor
  }

  /** The straight-line price at `f` between the rows `lo` and `hi`, before rounding. */
  function Interpolated(lo: FatRate, hi: FatRate, f: real): real
    requires lo.fatPercentage != hi.fatPercentage
  {
    lo.rate + (hi.rate - lo.rate) * ((f - lo.fatPercentage) / (hi.fatPercentage - lo.fatPercentage))
  }

  /**
   * The `for` loop over adjacent pairs of the sorted copy, from position `i`:
   * the position of the first pair whose fats enclose `f`, whose rounded
   * interpolation the loop returns.
   */
  function Bracket(s: seq<FatRate>, f: real, i: nat): (r: Option<nat>)
    ensures r.Some? ==> i <= r.value && r.value + 1 < |s| && s[r.value].fatPercentage <= f <= s[r.value + 1].fatPercentage
    decreases |s| - i
  {
    if i + 1 >= |s| then None
    else if f >= s[i].fatPercentage && f <= s[i + 1].fatPercentage then Some(i)
    else Bracket(s, f, i + 1)
  }

  /**
   * `calculateRate(fatPercentage, fatRates)`: 0 on an empty table; the
   * first row with that fat when there is one, unrounded; otherwise the
   * rate of some row of the table or a whole-number interpolation.
   */
  function CalculateRate(f: real, t: seq<FatRate>): (r: real)
    ensures |t| == 0 ==> r == 0.0
    ensures FindExact(t, f).Some? ==> r == FindExact(t, f).value.rate
    ensures |t| > 0 && FindExact(t, f).None? ==> r == r.Floor as real || exists k :: 0 <= k < |t| && t[k].rate == r
  {
    if |t| == 0 then 0.0
    else match FindExact(t, f)
      case Some(e) => e.rate
      case None =>
        var s := SortByFat(t);
        SortByFatOrders(t);
        NoExactInCopy(t, s, f);
        assert s[0] in t && s[|s| - 1] in t;
        if f <= s[0].fatPercentage then s[0].rate
        else if f >= s[|s| - 1].fatPercentage then s[|s| - 1].rate
        else match Bracket(s, f, 0)
          case Some(m) =>
            var n := JsRound(Interpolated(s[m], s[m + 1], f));
            assert (n as real).Floor == n;
            n as real
          case None => s[0].rate
  }

  lemma NoExactInCopy(t: seq<FatRate>, s: seq<FatRate>, f: real)
    requires forall k :: 0 <= k < |t| ==> t[k].fatPercentage != f
    requires forall x :: x in s ==> x in t
    ensures forall k :: 0 <= k < |s| ==> s[k].fatPercentage != f
  {
    forall k | 0 <= k < |s| ensures s[k].fatPercentage != f {
      assert s[k] in t;
    }
  }

  /**
   * `calculateRate` when the fat is NaN: every comparison is false, so the
   * search finds nothing and the final fallback returns the first row of the
   * sorted copy.
   */
  function CalculateRateOfNaN(t: seq<FatRate>): (r: real)
    ensures |t| == 0 ==> r == 0.0
    ensures |t| > 0 ==> exists k :: 0 <= k < |t| && t[k].rate == r && forall j :: 0 <= j < |t| ==> t[k].fatPercentage <= t[j].fatPercentage
  {
    if |t| == 0 then 0.0
    else
      var s := SortByFat(t);
      SortByFatOrders(t);
      assert s[0] in t;
      var k :| 0 <= k < |t| && t[k] == s[0];
      forall j | 0 <= j < |t| ensures t[k].fatPercentage <= t[j].fatPercentage {
        assert t[j] in s;
      }
      s[0].rate
  }

  // ------------------------------------------------------------------
  // Properties
  // ------------------------------------------------------------------

  /** In a table with distinct fats, the row with fat `f` gives the price. */
  lemma ExactRowRate(t: seq<FatRate>, e: FatRate)
    requires DistinctFats(t) && e in t
    ensures CalculateRate(e.fatPercentage, t) == e.rate
  {
    var m := FindExact(t, e.fatPercentage);
    DistinctFatsSameRow(t, m.value, e);
  }

  /** At or below the lowest fat, the price is the lowest row's rate. */
  lemma BelowTableRate(t: seq<FatRate>, lo: FatRate, f: real)
    requires DistinctFats(t) && lo in t
    requires forall k :: 0 <= k < |t| ==> lo.fatPercentage <= t[k].fatPercentage
    requires f <= lo.fatPercentage
    ensures CalculateRate(f, t) == lo.rate
  {
    if f == lo.fatPercentage {
      ExactRowRate(t, lo);
    } else {
      FirstIsLowest(t, lo);
      BottomRate(t, f);
    }
  }

  /** With distinct fats, the row whose fat no other row undercuts starts the sorted copy. */
  lemma FirstIsLowest(t: seq<FatRate>, lo: FatRate)
    requires DistinctFats(t) && lo in t
    requires forall k :: 0 <= k < |t| ==> lo.fatPercentage <= t[k].fatPercentage
    ensures |t| > 0 && SortByFat(t)[0] == lo
  {
    var s := SortByFat(t);
    SortByFatOrders(t);
    assert s[0] in t;
    var j :| 0 <= j < |s| && s[j] == lo;
    assert s[0].fatPercentage <= lo.fatPercentage;
    DistinctFatsSameRow(t, s[0], lo);
  }

  /** Off every row and at or below the sorted copy's first fat, the price is that row's rate. */
  lemma BottomRate(t: seq<FatRate>, f: real)
    requires |t| > 0 && forall k :: 0 <= k < |t| ==> t[k].fatPercentage != f
    requires f <= SortByFat(t)[0].fatPercentage
    ensures CalculateRate(f, t) == SortByFat(t)[0].rate
  {
  }

  /** At or above the highest fat, the price is the highest row's rate. */
  lemma AboveTableRate(t: seq<FatRate>, hi: FatRate, f: real)
    requires DistinctFats(t) && hi in t
    requires forall k :: 0 <= k < |t| ==> t[k].fatPercentage <= hi.fatPercentage
    requires f >= hi.fatPercentage
    ensures CalculateRate(f, t) == hi.rate
  {
    if f == hi.fatPercentage {
      ExactRowRate(t, hi);
    } else {
      LastIsHighest(t, hi);
      TopRate(t, f);
    }
  }

  /** With distinct fats, the row whose fat no other row exceeds ends the sorted copy. */
  lemma LastIsHighest(t: seq<FatRate>, hi: FatRate)
    requires DistinctFats(t) && hi in t
    requires forall k :: 0 <= k < |t| ==> t[k].fatPercentage <= hi.fatPercentage
    ensures |t| > 0 && SortByFat(t)[|t| - 1] == hi && SortByFat(t)[0].fatPercentage <= hi.fatPercentage
  {
    var s := SortByFat(t);
    SortByFatOrders(t);
    var n := |s| - 1;
    assert s[n] in t && s[0] in t;
    var j :| 0 <= j < |s| && s[j] == hi;
    assert hi.fatPercentage <= s[n].fatPercentage;
    DistinctFatsSameRow(t, s[n], hi);
  }

  /** Off every row and at or above the sorted copy's last fat, the price is that row's rate. */
  lemma TopRate(t: seq<FatRate>, f: real)
    requires |t| > 0 && forall k :: 0 <= k < |t| ==> t[k].fatPercentage != f
    requires SortByFat(t)[0].fatPercentage < f && SortByFat(t)[|t| - 1].fatPercentage <= f
    ensures CalculateRate(f, t) == SortByFat(t)[|t| - 1].rate
  {
  }

  /** The search, started at or before a pair that strictly encloses `f`, stops at that pair. */
  lemma {:induction false} BracketStopsAt(s: seq<FatRate>, f: real, i: nat, m: nat)
    requires forall a, b :: 0 <= a < b < |s| ==> s[a].fatPercentage <= s[b].fatPercentage
    requires i <= m && m + 1 < |s| && s[m].fatPercentage < f < s[m + 1].fatPercentage
    ensures Bracket(s, f, i) == Some(m)
    decreases m - i
  {
    if i < m {
      assert s[i + 1].fatPercentage <= s[m].fatPercentage;
      BracketStopsAt(s, f, i + 1, m);
    }
  }

  /** Strictly inside the sorted table, some adjacent pair strictly encloses `f`. */
  lemma {:induction false} EnclosingPair(s: seq<FatRate>, f: real, i: nat) returns (m: nat)
    requires forall k :: 0 <= k < |s| ==> s[k].fatPercentage != f
    requires i < |s| && s[i].fatPercentage < f < s[|s| - 1].fatPercentage
    ensures i <= m && m + 1 < |s| && s[m].fatPercentage < f < s[m + 1].fatPercentage
    decreases |s| - i
  {
    if s[i + 1].fatPercentage > f {
      m := i;
    } else {
      m := EnclosingPair(s, f, i + 1);
    }
  }

  /** In the sorted copy, the search stops at the pair holding the fats of `lo` and `hi`. */
  lemma SortedEnclosing(s: seq<FatRate>, f: real, lo: FatRate, hi: FatRate) returns (m: nat)
    requires forall k :: 0 <= k < |s| ==> s[k].fatPercentage != f
    requires forall a, b :: 0 <= a < b < |s| ==> s[a].fatPercentage <= s[b].fatPercentage
    requires lo in s && hi in s && lo.fatPercentage < f < hi.fatPercentage
    requires forall k :: 0 <= k < |s| ==> !(lo.fatPercentage < s[k].fatPercentage < hi.fatPercentage)
    ensures m + 1 < |s| && s[m].fatPercentage == lo.fatPercentage && s[m + 1].fatPercentage == hi.fatPercentage
    ensures Bracket(s, f, 0) == Some(m)
  {
    var i :| 0 <= i < |s| && s[i] == lo;
    var j :| 0 <= j < |s| && s[j] == hi;
    assert s[0].fatPercentage <= s[i].fatPercentage;
    assert s[j].fatPercentage <= s[|s| - 1].fatPercentage;
    m := EnclosingPair(s, f, 0);
    BracketStopsAt(s, f, 0, m);
    assert s[i].fatPercentage <= s[m].fatPercentage;
    assert s[m + 1].fatPercentage <= s[j].fatPercentage;
  }

  /**
   * Strictly between two neighbouring rows `lo` and `hi` (no row has a fat
   * strictly between theirs), the price is the rounded straight-line value.
   */
  lemma BetweenRowsRate(t: seq<FatRate>, lo: FatRate, hi: FatRate, f: real)
    requires DistinctFats(t) && lo in t && hi in t
    requires lo.fatPercentage < f < hi.fatPercentage
    requires forall k :: 0 <= k < |t| ==> !(lo.fatPercentage < t[k].fatPercentage < hi.fatPercentage)
    ensures CalculateRate(f, t) == JsRound(Interpolated(lo, hi, f)) as real
  {
    var m := EnclosingRows(t, lo, hi, f);
    InsideRate(t, SortByFat(t), f, m);
  }

  /** In the sorted copy of a table with distinct fats, the search stops at the pair `lo`, `hi`. */
  lemma EnclosingRows(t: seq<FatRate>, lo: FatRate, hi: FatRate, f: real) returns (m: nat)
    requires DistinctFats(t) && lo in t && hi in t
    requires lo.fatPercentage < f < hi.fatPercentage
    requires forall k :: 0 <= k < |t| ==> !(lo.fatPercentage < t[k].fatPercentage < hi.fatPercentage)
    ensures |t| > 0 && forall k :: 0 <= k < |t| ==> t[k].fatPercentage != f
    ensures forall k :: 0 <= k < |SortByFat(t)| ==> SortByFat(t)[k].fatPercentage != f
    ensures SortByFat(t)[0].fatPercentage < f < SortByFat(t)[|t| - 1].fatPercentage
    ensures Bracket(SortByFat(t), f, 0) == Some(m) && SortByFat(t)[m] == lo && SortByFat(t)[m + 1] == hi
  {
    SortByFatOrders(t);
    m := EnclosingRowsIn(t, SortByFat(t), lo, hi, f);
  }

  /** `EnclosingRows` for any ascending sequence `s` drawn from `t`. */
  lemma EnclosingRowsIn(t: seq<FatRate>, s: seq<FatRate>, lo: FatRate, hi: FatRate, f: real) returns (m: nat)
    requires DistinctFats(t) && lo in t && hi in t && lo in s && hi in s
    requires forall x :: x in s ==> x in t
    requires forall a, b :: 0 <= a < b < |s| ==> s[a].fatPercentage <= s[b].fatPercentage
    requires lo.fatPercentage < f < hi.fatPercentage
    requires forall k :: 0 <= k < |t| ==> !(lo.fatPercentage < t[k].fatPercentage < hi.fatPercentage)
    ensures |t| > 0 && forall k :: 0 <= k < |t| ==> t[k].fatPercentage != f
    ensures forall k :: 0 <= k < |s| ==> s[k].fatPercentage != f
    ensures s[0].fatPercentage < f < s[|s| - 1].fatPercentage
    ensures Bracket(s, f, 0) == Some(m) && s[m] == lo && s[m + 1] == hi
  {
    assert forall k :: 0 <= k < |t| ==> t[k].fatPercentage != f;
    NoExactInCopy(t, s, f);
    forall k | 0 <= k < |s| ensures !(lo.fatPercentage < s[k].fatPercentage < hi.fatPercentage) {
      assert s[k] in t;
    }
    m := SortedEnclosing(s, f, lo, hi);
    assert s[m] in t && s[m + 1] in t;
    DistinctFatsSameRow(t, s[m], lo);
    DistinctFatsSameRow(t, s[m + 1], hi);
    assert s[0].fatPercentage <= s[m].fatPercentage && s[m + 1].fatPercentage <= s[|s| - 1].fatPercentage;
  }

  /**
   * Without an exact row, a fat strictly inside the table gets a whole-number
   * price, whereas exact rows keep their decimals (see `RoundingAsymmetry`).
   */
  lemma InterpolatedRateIsWhole(t: seq<FatRate>, f: real, a: FatRate, b: FatRate)
    requires forall k :: 0 <= k < |t| ==> t[k].fatPercentage != f
    requires a in t && b in t && a.fatPercentage < f < b.fatPercentage
    ensures CalculateRate(f, t) == CalculateRate(f, t).Floor as real
  {
    var m := SomeEnclosing(t, f, a, b);
    InsideRate(t, SortByFat(t), f, m);
    var s := SortByFat(t);
    var n := JsRound(Interpolated(s[m], s[m + 1], f));
    assert (n as real).Floor == n;
  }

  /** Off every row and between two rows, the search over the sorted copy finds a pair. */
  lemma SomeEnclosing(t: seq<FatRate>, f: real, a: FatRate, b: FatRate) returns (m: nat)
    requires forall k :: 0 <= k < |t| ==> t[k].fatPercentage != f
    requires a in t && b in t && a.fatPercentage < f < b.fatPercentage
    ensures |t| > 0 && forall k :: 0 <= k < |SortByFat(t)| ==> SortByFat(t)[k].fatPercentage != f
    ensures SortByFat(t)[0].fatPercentage < f < SortByFat(t)[|t| - 1].fatPercentage
    ensures Bracket(SortByFat(t), f, 0) == Some(m)
  {
    SortByFatOrders(t);
    m := SomeEnclosingIn(t, SortByFat(t), f, a, b);
  }

  /** `SomeEnclosing` for any ascending sequence `s` holding the rows of `t`. */
  lemma SomeEnclosingIn(t: seq<FatRate>, s: seq<FatRate>, f: real, a: FatRate, b: FatRate) returns (m: nat)
    requires forall k :: 0 <= k < |t| ==> t[k].fatPercentage != f
    requires forall x :: x in s <==> x in t
    requires forall i, j :: 0 <= i < j < |s| ==> s[i].fatPercentage <= s[j].fatPercentage
    requires a in t && b in t && a.fatPercentage < f < b.fatPercentage
    ensures |s| > 0 && forall k :: 0 <= k < |s| ==> s[k].fatPercentage != f
    ensures s[0].fatPercentage < f < s[|s| - 1].fatPercentage
    ensures Bracket(s, f, 0) == Some(m)
  {
    NoExactInCopy(t, s, f);
    assert a in s && b in s;
    var i :| 0 <= i < |s| && s[i] == a;
    var j :| 0 <= j < |s| && s[j] == b;
    assert s[0].fatPercentage <= s[i].fatPercentage;
    assert s[j].fatPercentage <= s[|s| - 1].fatPercentage;
    m := EnclosingPair(s, f, 0);
    BracketStopsAt(s, f, 0, m);
  }

  /** Strictly inside the table and off every row, the price is the rounded interpolation over the pair the search finds. */
  lemma InsideRate(t: seq<FatRate>, s: seq<FatRate>, f: real, m: nat)
    requires s == SortByFat(t)
    requires |t| > 0 && forall k :: 0 <= k < |t| ==> t[k].fatPercentage != f
    requires forall k :: 0 <= k < |s| ==> s[k].fatPercentage != f
    requires s[0].fatPercentage < f < s[|s| - 1].fatPercentage
    requires Bracket(s, f, 0) == Some(m)
    ensures m + 1 < |s| && s[m].fatPercentage < f < s[m + 1].fatPercentage
    ensures CalculateRate(f, t) == JsRound(Interpolated(s[m], s[m + 1], f)) as real
  {
  }

  /**
   * A two-row table where the price drops as fat rises: the exact row keeps
   * 45.4 while a slightly fatter sample is rounded down to 45.
   */
  lemma RoundingAsymmetry()
    ensures CalculateRate(4.0, [FatRate(4.0, 45.4), FatRate(5.0, 46.0)]) == 45.4
    ensures CalculateRate(4.1, [FatRate(4.0, 45.4), FatRate(5.0, 46.0)]) == 45.0
  {
    TwoRowRates(FatRate(4.0, 45.4), FatRate(5.0, 46.0), 4.1);
    SampleRounds();
  }

  /** In a two-row table, the lower row's fat gets its own rate and a fat strictly between gets the rounded line. */
  lemma TwoRowRates(a: FatRate, b: FatRate, f: real)
    requires a.fatPercentage < f < b.fatPercentage
    ensures CalculateRate(a.fatPercentage, [a, b]) == a.rate
    ensures CalculateRate(f, [a, b]) == JsRound(Interpolated(a, b, f)) as real
  {
    var t := [a, b];
    assert DistinctFats(t);
    ExactRowRate(t, a);
    TwoRowsSorted(a, b);
    assert Bracket(t, f, 0) == Some(0);
    InsideRate(t, t, f, 0);
  }

  /** The straight line from (4.0, 45.4) to (5.0, 46.0) gives 45.46 at 4.1, which rounds to 45. */
  lemma SampleRounds()
    ensures JsRound(Interpolated(FatRate(4.0, 45.4), FatRate(5.0, 46.0), 4.1)) == 45
  {
    var x := Interpolated(FatRate(4.0, 45.4), FatRate(5.0, 46.0), 4.1);
    assert (4.1 - 4.0) / (5.0 - 4.0) == 0.1;
    assert x == 45.4 + 0.6 * 0.1 == 45.46;
    assert (45.46 + 0.5).Floor == 45;
  }

  /** Two rows already in fat order are their own sorted copy. */
  lemma TwoRowsSorted(a: FatRate, b: FatRate)
    requires a.fatPercentage <= b.fatPercentage
    ensures SortByFat([a, b]) == [a, b]
  {
    ByFatIsTotal();
    assert [a, b][1..] == [b];
    assert [b][1..] == [];
    assert SortBy([b], ByFat) == Insert(b, [], ByFat) == [b];
  }
}
