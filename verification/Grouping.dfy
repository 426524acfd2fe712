/** Grouping rows by a key in order of first appearance, as the programs do with a dictionary of
    lists, and what permuting the rows does to groups, maps and sums. */
module Grouping {
  import opened Prelude
  import opened Sorting

  /** The rows with this key. */
  function KeyIs<T(!new)>(key: T -> Name, k: Name): T -> bool { (r: T) => key(r) == k }

  /** The keys in order of first appearance. */
  function KeysOf<T(!new)>(key: T -> Name, rows: seq<T>): seq<Name> { FirstSeen(MapSeq(key, rows)) }

  /** `groups` holds the rows of each key, its keys in order of appearance `order`. */
  ghost predicate Groups<T(!new)>(key: T -> Name, order: seq<Name>, groups: map<Name, seq<T>>, rows: seq<T>) {
    && order == KeysOf(key, rows)
    && (forall k :: k in groups <==> k in order)
    && (forall k :: k in groups ==> groups[k] == Filter(KeyIs(key, k), rows))
  }

  method GroupBy<T(!new)>(key: T -> Name, rows: seq<T>) returns (order: seq<Name>, groups: map<Name, seq<T>>)
    ensures Groups(key, order, groups, rows)
  {
    order, groups := [], map[];
    for i := 0 to |rows|
      invariant Groups(key, order, groups, rows[..i])
    {
      var k := key(rows[i]);
      NextRow(key, rows, i);
      if k in groups {
        groups := groups[k := groups[k] + [rows[i]]];
      } else {
        NewKey(key, rows[..i], k);
        order := order + [k];
        groups := groups[k := [rows[i]]];
      }
    }
    assert rows[..|rows|] == rows;
  }

  lemma NextRow<T(!new)>(key: T -> Name, rows: seq<T>, i: nat)
    requires i < |rows|
    ensures forall k :: Filter(KeyIs(key, k), rows[..i + 1])
                     == Filter(KeyIs(key, k), rows[..i]) + if key(rows[i]) == k then [rows[i]] else []
    ensures KeysOf(key, rows[..i + 1])
         == KeysOf(key, rows[..i]) + if key(rows[i]) in KeysOf(key, rows[..i]) then [] else [key(rows[i])]
  {
    assert rows[..i + 1] == rows[..i] + [rows[i]];
    forall k ensures Filter(KeyIs(key, k), rows[..i + 1])
                  == Filter(KeyIs(key, k), rows[..i]) + if key(rows[i]) == k then [rows[i]] else [] {
      FilterAppend(KeyIs(key, k), rows[..i], [rows[i]]);
    }
    var names := MapSeq(key, rows[..i + 1]);
    assert names[..i] == MapSeq(key, rows[..i]);
  }

  lemma NewKey<T(!new)>(key: T -> Name, rows: seq<T>, k: Name)
    requires k !in KeysOf(key, rows)
    ensures Filter(KeyIs(key, k), rows) == []
  {
    var names := MapSeq(key, rows);
    forall i | 0 <= i < |rows| ensures key(rows[i]) != k {
      assert names[i] == key(rows[i]) && names[i] in names;
    }
    NoneKept(KeyIs(key, k), rows);
  }

  /** A key is seen exactly when some row has it. */
  lemma KeysOfContents<T(!new)>(key: T -> Name, rows: seq<T>)
    ensures forall k :: k in KeysOf(key, rows) <==> exists r :: r in rows && key(r) == k
  {
    var names := MapSeq(key, rows);
    forall k ensures k in KeysOf(key, rows) <==> exists r :: r in rows && key(r) == k {
      if k in names {
        var i :| 0 <= i < |names| && names[i] == k;
        assert rows[i] in rows && key(rows[i]) == k;
      }
      if r :| r in rows && key(r) == k {
        var i :| 0 <= i < |rows| && rows[i] == r;
        assert names[i] == k;
      }
    }
  }

  // ----- permuting -----

  lemma {:induction false} FilterCounts<T(!new)>(p: T -> bool, s: seq<T>, x: T)
    ensures multiset(Filter(p, s))[x] == if p(x) then multiset(s)[x] else 0
  {
    if s != [] {
      assert s == [s[0]] + s[1..];
      FilterCounts(p, s[1..], x);
    }
  }

  lemma FilterPermutes<T(!new)>(p: T -> bool, a: seq<T>, b: seq<T>)
    requires multiset(a) == multiset(b)
    ensures multiset(Filter(p, a)) == multiset(Filter(p, b))
  {
    forall x ensures multiset(Filter(p, a))[x] == multiset(Filter(p, b))[x] {
      FilterCounts(p, a, x);
      FilterCounts(p, b, x);
    }
  }

  /** The first element of `a` somewhere in `b`, and what is left of both without it. */
  lemma TakeOut<T(!new)>(a: seq<T>, b: seq<T>) returns (i: nat)
    requires a != [] && multiset(a) == multiset(b)
    ensures i < |b| && b[i] == a[0] && multiset(a[1..]) == multiset(b[..i] + b[i + 1..])
  {
    i := PlaceOf(a, b);
    WithoutHead(a, multiset(b), b[i]);
    WithoutOne(b, i);
  }

  lemma PlaceOf<T(!new)>(a: seq<T>, b: seq<T>) returns (i: nat)
    requires a != [] && multiset(a) == multiset(b)
    ensures i < |b| && b[i] == a[0]
  {
    SameElements(a, b);
    assert a[0] in b;
    i :| 0 <= i < |b| && b[i] == a[0];
  }

  lemma WithoutOne<T(!new)>(s: seq<T>, i: nat)
    requires i < |s|
    ensures multiset(s[..i] + s[i + 1..]) == multiset(s) - multiset{s[i]}
  {
    assert s == s[..i] + [s[i]] + s[i + 1..];
  }

  lemma MapConcat<A(!new), B(!new)>(f: A -> B, a: seq<A>, b: seq<A>)
    ensures MapSeq(f, a + b) == MapSeq(f, a) + MapSeq(f, b)
  {
  }

  /** The elements that `f` maps to `y`. */
  ghost function Hits<A(!new), B(!new)>(f: A -> B, y: B): A -> bool { (x: A) => f(x) == y }

  lemma {:induction false} MapCounts<A(!new), B(!new)>(f: A -> B, s: seq<A>, y: B)
    ensures multiset(MapSeq(f, s))[y] == |Filter(Hits(f, y), s)|
  {
    if s != [] {
      MapCounts(f, s[1..], y);
      assert MapSeq(f, s) == [f(s[0])] + MapSeq(f, s[1..]);
    }
  }

  lemma MapPermutes<A(!new), B(!new)>(f: A -> B, a: seq<A>, b: seq<A>)
    requires multiset(a) == multiset(b)
    ensures multiset(MapSeq(f, a)) == multiset(MapSeq(f, b))
  {
    forall y ensures multiset(MapSeq(f, a))[y] == multiset(MapSeq(f, b))[y] {
      MapCounts(f, a, y);
      MapCounts(f, b, y);
      FilterPermutes(Hits(f, y), a, b);
      SameElements(Filter(Hits(f, y), a), Filter(Hits(f, y), b));
    }
  }

  function Sum(s: seq<real>): real { if s == [] then 0.0 else s[0] + Sum(s[1..]) }

  lemma {:induction false} SumSplits(s: seq<real>, i: nat)
    requires i < |s|
    ensures Sum(s) == s[i] + Sum(s[..i] + s[i + 1..])
  {
    if i == 0 {
      assert s[..0] + s[1..] == s[1..];
    } else {
      SumSplits(s[1..], i - 1);
      assert (s[..i] + s[i + 1..])[1..] == s[1..][..i - 1] + s[1..][i..];
    }
  }

  lemma {:induction false} SumPermutes(a: seq<real>, b: seq<real>)
    requires multiset(a) == multiset(b)
    ensures Sum(a) == Sum(b)
  {
    SameElements(a, b);
    if a != [] {
      var i := TakeOut(a, b);
      SumPermutes(a[1..], b[..i] + b[i + 1..]);
      SumSplits(b, i);
    }
  }
}
