/** File names of attempts: numbers padded to three digits, and where sorting the names still
    agrees with counting. */
module AttemptNames {
  import opened Prelude
  import opened Sorting

  function Digit(d: nat): char
    requires d < 10
  {
    ['0', '1', '2', '3', '4', '5', '6', '7', '8', '9'][d]
  }

  function Decimal(n: nat): string {
    if n < 10 then [Digit(n)] else Decimal(n / 10) + [Digit(n % 10)]
  }

  /** Zero-padded to at least three characters. */
  function Padded(n: nat): string {
    if n < 10 then ['0', '0'] + Decimal(n) else if n < 100 then ['0'] + Decimal(n) else Decimal(n)
  }

  function AttemptId(n: nat): string { "attempt-" + Padded(n) }

  function FileName(n: nat): string { AttemptId(n) + ".json" }

  /** String order. */
  predicate LexLeq(a: string, b: string) {
    a == [] || (b != [] && (a[0] < b[0] || (a[0] == b[0] && LexLeq(a[1..], b[1..]))))
  }

  const BY_TEXT: (string, string) -> bool := (a: string, b: string) => LexLeq(a, b)

  lemma {:induction false} LexTotal(a: string, b: string)
    ensures LexLeq(a, b) || LexLeq(b, a)
    ensures LexLeq(a, b) && LexLeq(b, a) ==> a == b
  {
    if a != [] && b != [] {
      LexTotal(a[1..], b[1..]);
      if a[0] == b[0] {
        assert a == [a[0]] + a[1..] && b == [b[0]] + b[1..];
      }
    }
  }

  lemma {:induction false} LexTransitive(a: string, b: string, c: string)
    requires LexLeq(a, b) && LexLeq(b, c)
    ensures LexLeq(a, c)
  {
    if a != [] && a[0] == b[0] && b[0] == c[0] { LexTransitive(a[1..], b[1..], c[1..]); }
  }

  lemma ByTextIsTotalOrder()
    ensures TotalOrder(BY_TEXT)
  {
    forall a, b ensures (BY_TEXT(a, b) || BY_TEXT(b, a)) && (BY_TEXT(a, b) && BY_TEXT(b, a) ==> a == b) {
      LexTotal(a, b);
    }
    forall a, b, c | BY_TEXT(a, b) && BY_TEXT(b, c) ensures BY_TEXT(a, c) { LexTransitive(a, b, c); }
  }

  lemma {:induction false} LexPrefix(p: string, a: string, b: string)
    ensures LexLeq(p + a, p + b) <==> LexLeq(a, b)
  {
    if p == [] {
      assert p + a == a && p + b == b;
    } else {
      assert (p + a)[1..] == p[1..] + a && (p + b)[1..] == p[1..] + b;
      LexPrefix(p[1..], a, b);
    }
  }

  /** The names of the first `n` attempts, in numeric order. */
  function Names(n: nat): (r: seq<string>)
    ensures |r| == n && forall i :: 0 <= i < n ==> r[i] == FileName(i + 1)
  {
    if n == 0 then [] else Names(n - 1) + [FileName(n)]
  }

  /** The order of a directory listing once sorted. */
  function Listing(n: nat): seq<string> { Sort(Names(n), BY_TEXT) }

  lemma Digits3(n: nat)
    requires n <= 999
    ensures Padded(n) == [Digit(n / 100), Digit(n / 10 % 10), Digit(n % 10)]
  {
    if n >= 100 {
      var t := n / 10;
      assert t >= 10 && t / 10 == n / 100 && n / 100 < 10;
      assert Decimal(t / 10) == [Digit(t / 10)];
      assert Decimal(t) == [Digit(t / 10)] + [Digit(t % 10)];
      assert Decimal(n) == Decimal(t) + [Digit(n % 10)];
    } else if n >= 10 {
      assert n / 10 % 10 == n / 10 && Decimal(n / 10) == [Digit(n / 10)];
    }
  }

  lemma LexHead(c: char, a: string, d: char, b: string)
    ensures LexLeq([c] + a, [d] + b) <==> c < d || (c == d && LexLeq(a, b))
  {
    assert ([c] + a)[1..] == a && ([d] + b)[1..] == b;
  }

  /** Three characters decide, when they differ. */
  lemma LexThree(c: char, d: char, e: char, s: string, c': char, d': char, e': char, s': string)
    requires c < c' || (c == c' && (d < d' || (d == d' && e < e')))
    ensures LexLeq([c, d, e] + s, [c', d', e'] + s') && !LexLeq([c', d', e'] + s', [c, d, e] + s)
  {
    var a, b := [e] + s, [e'] + s';
    LexHead(e, s, e', s');
    LexHead(e', s', e, s);
    LexHead(d, a, d', b);
    LexHead(d', b, d, a);
    LexHead(c, [d] + a, c', [d'] + b);
    LexHead(c', [d'] + b, c, [d] + a);
    assert [c, d, e] + s == [c] + ([d] + a) && [c', d', e'] + s' == [c'] + ([d'] + b);
  }

  lemma NameSplit(n: nat)
    ensures FileName(n) == "attempt-" + (Padded(n) + ".json")
  {
  }

  lemma DigitOrder(a: nat, b: nat)
    requires a < 10 && b < 10
    ensures Digit(a) < Digit(b) <==> a < b
    ensures Digit(a) == Digit(b) <==> a == b
  {
  }

  lemma Names3Ordered(i: nat, j: nat)
    requires i < j <= 999
    ensures LexLeq(FileName(i), FileName(j))
  {
    Digits3(i);
    Digits3(j);
    DigitOrder(i / 100, j / 100);
    DigitOrder(i / 10 % 10, j / 10 % 10);
    DigitOrder(i % 10, j % 10);
    DigitsDecide(i, j);
    LexThree(Digit(i / 100), Digit(i / 10 % 10), Digit(i % 10), ".json",
             Digit(j / 100), Digit(j / 10 % 10), Digit(j % 10), ".json");
    LexPrefix("attempt-", Padded(i) + ".json", Padded(j) + ".json");
    NameSplit(i);
    NameSplit(j);
  }

  lemma DigitsDecide(i: nat, j: nat)
    requires i < j
    ensures i / 100 < j / 100
         || (i / 100 == j / 100 && (i / 10 % 10 < j / 10 % 10 || (i / 10 % 10 == j / 10 % 10 && i % 10 < j % 10)))
  {
    assert i / 10 == 10 * (i / 100) + i / 10 % 10 && j / 10 == 10 * (j / 100) + j / 10 % 10;
    assert i == 10 * (i / 10) + i % 10 && j == 10 * (j / 10) + j % 10;
  }

  /** The thousandth name sorts before the hundred-and-first. */
  lemma Thousandth()
    ensures !LexLeq(FileName(101), FileName(1000))
  {
    Digits3(101);
    Digits3(100);
    assert Decimal(1000) == Decimal(100) + ['0'];
    assert Padded(1000) + ".json" == ['1', '0', '0'] + "0.json";
    LexThree('1', '0', '0', "0.json", '1', '0', '1', ".json");
    LexPrefix("attempt-", Padded(101) + ".json", Padded(1000) + ".json");
    NameSplit(101);
    NameSplit(1000);
  }

  /** Sorting the names agrees with numeric order exactly up to 999 attempts. */
  lemma ListingIsNumericIff(n: nat)
    ensures Listing(n) == Names(n) <==> n <= 999
  {
    ByTextIsTotalOrder();
    SortSorts(Names(n), BY_TEXT);
    if n <= 999 {
      forall i, j | 0 <= i < j < n ensures BY_TEXT(Names(n)[i], Names(n)[j]) { Names3Ordered(i + 1, j + 1); }
      SortedUnique(Names(n), Listing(n), BY_TEXT);
    } else {
      Thousandth();
      assert Names(n)[100] == FileName(101) && Names(n)[999] == FileName(1000);
      assert !SortedBy(Names(n), BY_TEXT) by {
        assert !BY_TEXT(Names(n)[100], Names(n)[999]);
      }
    }
  }
}
