/** A reference definition of the stable sort the programs call: insertion sort by an order
    given as a function, with the facts its callers rely on. */
module Sorting {
  import opened Prelude

  ghost predicate TotalPreorder<T(!new)>(leq: (T, T) -> bool) {
    && (forall x, y :: leq(x, y) || leq(y, x))
    && (forall x, y, z :: leq(x, y) && leq(y, z) ==> leq(x, z))
  }

  ghost predicate TotalOrder<T(!new)>(leq: (T, T) -> bool) {
    TotalPreorder(leq) && forall x, y :: leq(x, y) && leq(y, x) ==> x == y
  }

  ghost predicate SortedBy<T>(s: seq<T>, leq: (T, T) -> bool) {
    forall i, j :: 0 <= i < j < |s| ==> leq(s[i], s[j])
  }

  /** Places `x` before the first element it does not exceed. */
  function Insert<T>(x: T, s: seq<T>, leq: (T, T) -> bool): (r: seq<T>)
    ensures multiset(r) == multiset(s) + multiset{x}
  {
    if s == [] then [x]
    else if leq(x, s[0]) then [x] + s
    else
      assert s == [s[0]] + s[1..];
      [s[0]] + Insert(x, s[1..], leq)
  }

  function Sort<T(!new)>(s: seq<T>, leq: (T, T) -> bool): (r: seq<T>)
    ensures multiset(r) == multiset(s)
    ensures |r| == |s|
    ensures forall x :: x in r <==> x in s
  {
    if s == [] then []
    else
      assert s == [s[0]] + s[1..];
      var r := Insert(s[0], Sort(s[1..], leq), leq);
      SameElements(r, s);
      r
  }

  lemma SameElements<T(!new)>(a: seq<T>, b: seq<T>)
    requires multiset(a) == multiset(b)
    ensures |a| == |b|
    ensures forall x :: x in a <==> x in b
  {
    assert |multiset(a)| == |a| && |multiset(b)| == |b|;
    forall x ensures x in a <==> x in b {
      assert x in a <==> x in multiset(a);
      assert x in b <==> x in multiset(b);
    }
  }

  lemma {:induction false} InsertSorts<T(!new)>(x: T, s: seq<T>, leq: (T, T) -> bool)
    requires TotalPreorder(leq) && SortedBy(s, leq)
    ensures SortedBy(Insert(x, s, leq), leq)
  {
    if s != [] && !leq(x, s[0]) {
      InsertSorts(x, s[1..], leq);
      var r := Insert(x, s[1..], leq);
      assert s == [s[0]] + s[1..];
      SameElements(r, s[1..] + [x]);
      forall k | 0 <= k < |r| ensures leq(s[0], r[k]) {
        assert r[k] in s[1..] + [x];
      }
    }
  }

  lemma {:induction false} SortSorts<T(!new)>(s: seq<T>, leq: (T, T) -> bool)
    requires TotalPreorder(leq)
    ensures SortedBy(Sort(s, leq), leq)
  {
    if s != [] {
      SortSorts(s[1..], leq);
      InsertSorts(s[0], Sort(s[1..], leq), leq);
    }
  }

  /** Under an antisymmetric order there is only one way to sort a bag of elements. */
  lemma {:induction false} SortedUnique<T(!new)>(a: seq<T>, b: seq<T>, leq: (T, T) -> bool)
    requires TotalOrder(leq) && SortedBy(a, leq) && SortedBy(b, leq)
    requires multiset(a) == multiset(b)
    ensures a == b
  {
    SameElements(a, b);
    if a != [] {
      assert a[0] in b && b[0] in a;
      assert leq(a[0], b[0]) && leq(b[0], a[0]);
      WithoutHead(a, multiset(b), b[0]);
      WithoutHead(b, multiset(b), b[0]);
      SortedUnique(a[1..], b[1..], leq);
      assert a == [a[0]] + a[1..] && b == [b[0]] + b[1..];
    }
  }

  lemma WithoutHead<T>(s: seq<T>, m: multiset<T>, x: T)
    requires s != [] && multiset(s) == m && s[0] == x
    ensures multiset(s[1..]) == m - multiset{x}
  {
    assert s == [s[0]] + s[1..];
  }

  /** Sorting forgets the order of its input. */
  lemma SortForgetsOrder<T(!new)>(a: seq<T>, b: seq<T>, leq: (T, T) -> bool)
    requires TotalOrder(leq) && multiset(a) == multiset(b)
    ensures Sort(a, leq) == Sort(b, leq)
  {
    SortSorts(a, leq);
    SortSorts(b, leq);
    SortedUnique(Sort(a, leq), Sort(b, leq), leq);
  }

  /** Whatever is cut off a sorted list is no smaller than what is kept. */
  lemma PrefixOfSort<T(!new)>(s: seq<T>, leq: (T, T) -> bool, n: nat, kept: T, cut: T)
    requires TotalPreorder(leq) && n <= |s|
    requires kept in Sort(s, leq)[..n] && cut in s && cut !in Sort(s, leq)[..n]
    ensures leq(kept, cut)
  {
    var ranked := Sort(s, leq);
    SortSorts(s, leq);
    assert cut in ranked;
    assert forall t :: 0 <= t < n ==> ranked[t] == ranked[..n][t] && ranked[t] in ranked[..n];
    var a :| 0 <= a < n && ranked[a] == kept;
    var b :| 0 <= b < |ranked| && ranked[b] == cut;
    assert b >= n;
  }
}
