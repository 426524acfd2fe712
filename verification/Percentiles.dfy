/** The linearly interpolated percentile: a function of the bag of values, between its extremes,
    and monotone in the quantile. */
module Percentiles {
  import opened Prelude
  import opened Sorting
  import opened Grouping

  const ASCENDING: (real, real) -> bool := (a: real, b: real) => a <= b

  function Ceil(x: real): int { if x == x.Floor as real then x.Floor else x.Floor + 1 }

  /** The value at a fractional position of a sorted list. */
  function At(s: seq<real>, position: real): real
    requires 0.0 <= position <= (|s| - 1) as real && s != []
  {
    var lower, upper := position.Floor, Ceil(position);
    if lower == upper then s[lower] else s[lower] + (s[upper] - s[lower]) * (position - lower as real)
  }

  function Position(n: nat, q: real): real { (n - 1) as real * q }

  lemma PositionInRange(n: nat, q: real)
    requires n > 0 && 0.0 <= q <= 1.0
    ensures 0.0 <= Position(n, q) <= (n - 1) as real
  {
    Fraction((n - 1) as real, q);
  }

  lemma ScaleMonotone(m: real, a: real, b: real)
    requires 0.0 <= m && a <= b
    ensures m * a <= m * b
  {
    assert m * b - m * a == m * (b - a);
  }

  lemma Fraction(gap: real, w: real)
    requires 0.0 <= gap && 0.0 <= w <= 1.0
    ensures 0.0 <= gap * w <= gap
  {
    ScaleMonotone(gap, 0.0, w);
    ScaleMonotone(gap, w, 1.0);
    assert gap * 0.0 == 0.0 && gap * 1.0 == gap;
  }

  lemma PositionMonotone(n: nat, q: real, r: real)
    requires n > 0 && q <= r
    ensures Position(n, q) <= Position(n, r)
  {
    var m := (n - 1) as real;
    ScaleMonotone(m, q, r);
    assert Position(n, q) == m * q && Position(n, r) == m * r;
  }

  /** None for an empty list or a quantile outside [0, 1]. */
  function Percentile(values: seq<real>, q: real): Option<real> {
    if values == [] || !(0.0 <= q <= 1.0) then None
    else
      PositionInRange(|values|, q);
      Some(At(Sort(values, ASCENDING), Position(|values|, q)))
  }

  lemma AscendingIsTotalOrder()
    ensures TotalOrder(ASCENDING)
  {
  }

  lemma PercentileForgetsOrder(a: seq<real>, b: seq<real>, q: real)
    requires multiset(a) == multiset(b)
    ensures Percentile(a, q) == Percentile(b, q)
  {
    AscendingIsTotalOrder();
    SameElements(a, b);
    SortForgetsOrder(a, b, ASCENDING);
  }

  // ----- order -----

  ghost predicate Rising(s: seq<real>) { forall i, j :: 0 <= i <= j < |s| ==> s[i] <= s[j] }

  lemma SortRises(values: seq<real>)
    ensures Rising(Sort(values, ASCENDING))
  {
    AscendingIsTotalOrder();
    SortSorts(values, ASCENDING);
  }

  /** Interpolation stays between its two neighbours. */
  lemma AtIsBetween(s: seq<real>, p: real)
    requires s != [] && Rising(s) && 0.0 <= p <= (|s| - 1) as real
    ensures s[p.Floor] <= At(s, p) <= s[Ceil(p)]
  {
    var lower, upper := p.Floor, Ceil(p);
    if lower != upper {
      assert upper == lower + 1;
      var gap, w := s[upper] - s[lower], p - lower as real;
      Fraction(gap, w);
      assert At(s, p) == s[lower] + gap * w;
    }
  }

  lemma AtIsMonotone(s: seq<real>, p: real, r: real)
    requires s != [] && Rising(s) && 0.0 <= p <= r <= (|s| - 1) as real
    ensures At(s, p) <= At(s, r)
  {
    AtIsBetween(s, p);
    AtIsBetween(s, r);
    if p.Floor == r.Floor {
      var k := p.Floor;
      if p == k as real {
        assert At(s, p) == s[k];
      } else {
        assert Ceil(p) == k + 1 && Ceil(r) == k + 1;
        var gap, a, b := s[k + 1] - s[k], p - k as real, r - k as real;
        assert At(s, p) == s[k] + gap * a && At(s, r) == s[k] + gap * b;
        ScaleMonotone(gap, a, b);
      }
    } else {
      assert Ceil(p) <= r.Floor;
    }
  }

  lemma PercentileIsBounded(values: seq<real>, q: real)
    requires Percentile(values, q).Some?
    ensures exists lo :: lo in values && (forall v :: v in values ==> lo <= v) && lo <= Percentile(values, q).value
    ensures exists hi :: hi in values && (forall v :: v in values ==> v <= hi) && Percentile(values, q).value <= hi
  {
    var s := Sort(values, ASCENDING);
    var p := Position(|values|, q);
    SortRises(values);
    PositionInRange(|values|, q);
    AtIsWithin(s, p);
    Extremes(values, s);
    var lo, hi := s[0], s[|s| - 1];
    assert Percentile(values, q).value == At(s, p);
    assert lo in values && (forall v :: v in values ==> lo <= v) && lo <= At(s, p);
    assert hi in values && (forall v :: v in values ==> v <= hi) && At(s, p) <= hi;
  }

  lemma AtIsWithin(s: seq<real>, p: real)
    requires s != [] && Rising(s) && 0.0 <= p <= (|s| - 1) as real
    ensures s[0] <= At(s, p) <= s[|s| - 1]
  {
    AtIsBetween(s, p);
    assert s[0] <= s[p.Floor] && s[Ceil(p)] <= s[|s| - 1];
  }

  lemma Extremes(values: seq<real>, s: seq<real>)
    requires Rising(s) && s != [] && forall v :: v in s <==> v in values
    ensures s[0] in values && s[|s| - 1] in values
    ensures forall v :: v in values ==> s[0] <= v <= s[|s| - 1]
  {
    var lo, hi := s[0], s[|s| - 1];
    assert lo in s && hi in s;
    forall v | v in values ensures s[0] <= v <= s[|s| - 1] {
      assert v in s;
      var i :| 0 <= i < |s| && s[i] == v;
    }
  }

  lemma PercentileIsMonotone(values: seq<real>, q: real, r: real)
    requires values != [] && 0.0 <= q <= r <= 1.0
    ensures Percentile(values, q).value <= Percentile(values, r).value
  {
    SortRises(values);
    PositionInRange(|values|, q);
    PositionInRange(|values|, r);
    PositionMonotone(|values|, q, r);
    var s := Sort(values, ASCENDING);
    AtIsMonotone(s, Position(|values|, q), Position(|values|, r));
  }

  /** The ends are the minimum and the maximum. */
  lemma PercentileEnds(values: seq<real>)
    requires values != []
    ensures var lo, hi := Percentile(values, 0.0).value, Percentile(values, 1.0).value;
            lo in values && hi in values && forall v :: v in values ==> lo <= v <= hi
  {
    var s := Sort(values, ASCENDING);
    SortRises(values);
    Extremes(values, s);
    PositionInRange(|values|, 0.0);
    PositionInRange(|values|, 1.0);
    assert Position(|values|, 0.0) == 0.0;
    assert Position(|values|, 1.0) == (|values| - 1) as real;
    assert ((|values| - 1) as real).Floor == |values| - 1;
  }
}
