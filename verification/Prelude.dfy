/** Shared vocabulary: options and the sequence facts every component uses. */
module Prelude {

  datatype Option<+T> = None | Some(value: T)

  /** A model, case or provider name, given by its rank in the string order: the programs
      modelled here only ever compare names for equality and for order. */
  type Name = int

  function Min(x: real, y: real): real { if x <= y then x else y }

  function Max(x: real, y: real): real { if x <= y then y else x }

  ghost predicate NoDup<T>(s: seq<T>) {
    forall i, j :: 0 <= i < j < |s| ==> s[i] != s[j]
  }

  /** `f` applied to every element, in order. */
  function MapSeq<A, B>(f: A -> B, s: seq<A>): (r: seq<B>)
    ensures |r| == |s| && forall i :: 0 <= i < |s| ==> r[i] == f(s[i])
  {
    if s == [] then [] else [f(s[0])] + MapSeq(f, s[1..])
  }

  /** The elements of `s` that satisfy `p`, in order. */
  function Filter<T(!new)>(p: T -> bool, s: seq<T>): (r: seq<T>)
    ensures forall x :: x in r <==> x in s && p(x)
  {
    if s == [] then [] else (if p(s[0]) then [s[0]] else []) + Filter(p, s[1..])
  }

  lemma {:induction false} FilterAppend<T(!new)>(p: T -> bool, a: seq<T>, b: seq<T>)
    ensures Filter(p, a + b) == Filter(p, a) + Filter(p, b)
  {
    if a == [] {
      assert a + b == b;
    } else {
      assert (a + b)[1..] == a[1..] + b;
      FilterAppend(p, a[1..], b);
      assert (a + b)[0] == a[0];
      var head := if p(a[0]) then [a[0]] else [];
      assert head + (Filter(p, a[1..]) + Filter(p, b)) == (head + Filter(p, a[1..])) + Filter(p, b);
    }
  }

  lemma {:induction false} FilterTwice<T(!new)>(p: T -> bool, q: T -> bool, both: T -> bool, s: seq<T>)
    requires forall x :: both(x) <==> p(x) && q(x)
    ensures Filter(q, Filter(p, s)) == Filter(both, s)
  {
    if s != [] {
      FilterTwice(p, q, both, s[1..]);
      FilterAppend(q, if p(s[0]) then [s[0]] else [], Filter(p, s[1..]));
    }
  }

  lemma {:induction false} AllKept<T(!new)>(p: T -> bool, s: seq<T>)
    requires forall i :: 0 <= i < |s| ==> p(s[i])
    ensures Filter(p, s) == s
  {
    if s != [] { AllKept(p, s[1..]); }
  }

  lemma {:induction false} NoneKept<T(!new)>(p: T -> bool, s: seq<T>)
    requires forall i :: 0 <= i < |s| ==> !p(s[i])
    ensures Filter(p, s) == []
  {
    if s != [] { NoneKept(p, s[1..]); }
  }

  /** Every distinct element of `s` once, in order of first appearance: the key order of a
      dictionary filled by walking `s`. */
  function FirstSeen<T(==,!new)>(s: seq<T>): (r: seq<T>)
    ensures forall x :: x in r <==> x in s
    ensures NoDup(r)
  {
    if s == [] then []
    else
      var r := FirstSeen(s[..|s| - 1]);
      assert s == s[..|s| - 1] + [s[|s| - 1]];
      if s[|s| - 1] in r then r else r + [s[|s| - 1]]
  }

  lemma NoDupAppend<T(!new)>(a: seq<T>, b: seq<T>)
    requires NoDup(a) && NoDup(b)
    requires forall x :: x in a ==> x !in b
    ensures NoDup(a + b)
  {
    forall i, j | 0 <= i < j < |a + b| ensures (a + b)[i] != (a + b)[j] {
      if i < |a| <= j {
        assert a[i] in a && b[j - |a|] in b;
      }
    }
  }

  /** Two duplicate-free lists of the same elements are permutations of each other. */
  lemma {:induction false} NoDupSameElements<T(!new)>(a: seq<T>, b: seq<T>)
    requires NoDup(a) && NoDup(b)
    requires forall x :: x in a <==> x in b
    ensures multiset(a) == multiset(b)
  {
    NoDupMultiplicity(a);
    NoDupMultiplicity(b);
    forall x ensures multiset(a)[x] == multiset(b)[x] {
      assert x in multiset(a) <==> x in a;
      assert x in multiset(b) <==> x in b;
    }
  }

  lemma {:induction false} NoDupMultiplicity<T(!new)>(s: seq<T>)
    requires NoDup(s)
    ensures forall x :: x in s ==> multiset(s)[x] == 1
  {
    if s != [] {
      var t := s[1..];
      assert s == [s[0]] + t;
      assert NoDup(t) by {
        forall i, j | 0 <= i < j < |t| ensures t[i] != t[j] {
          assert s[i + 1] != s[j + 1];
        }
      }
      NoDupMultiplicity(t);
      assert forall k :: 0 <= k < |t| ==> t[k] == s[k + 1] != s[0];
      assert s[0] !in multiset(t);
      forall x | x in s ensures multiset(s)[x] == 1 {
        assert multiset(s)[x] == multiset([s[0]])[x] + multiset(t)[x];
      }
    }
  }

  /** Being duplicate-free only depends on the multiset of elements. */
  lemma {:induction false} NoDupPermutes<T(!new)>(a: seq<T>, b: seq<T>)
    requires NoDup(a) && multiset(a) == multiset(b)
    ensures NoDup(b)
  {
    NoDupMultiplicity(a);
    forall i, j | 0 <= i < j < |b| ensures b[i] != b[j] {
      var x := b[j];
      assert x in multiset(b);
      assert x in multiset(a) && x in a;
      assert b == b[..j] + [x] + b[j + 1..];
      assert multiset(b)[x] == multiset(b[..j])[x] + 1 + multiset(b[j + 1..])[x];
      assert multiset(b[..j])[x] == 0;
      assert b[i] in multiset(b[..j]);
    }
  }
}
