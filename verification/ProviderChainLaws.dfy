/** The chain holds exactly the eligible endpoints of the best providers, in rank order, with the
    first party leading whenever it can serve at all. */
module ProviderChainLaws {
  import opened Prelude
  import opened Sorting
  import opened ProviderChain

  lemma RankingIsPreorder(p: Policy)
    ensures TotalPreorder(Ranking(p))
  {
  }

  // ----- provider order -----

  function Kept(kept: seq<Name>): Name -> bool { (x: Name) => x in kept }

  lemma {:induction false} FirstSeenOfFiltered(es: seq<Endpoint>, kept: seq<Name>)
    ensures Providers(Filter(Served(kept), es)) == Filter(Kept(kept), Providers(es))
    decreases |es|
  {
    if es != [] {
      var before, last := es[..|es| - 1], es[|es| - 1];
      assert es == before + [last];
      FirstSeenOfFiltered(before, kept);
      ProvidersSnoc(before, last);
      FilterAppend(Served(kept), before, [last]);
      FilterAppend(Kept(kept), Providers(before), [last.provider]);
      FilterSingle(last, kept);
      ProvidersSnoc(Filter(Served(kept), before), last);
      FilteredStep(before, last, kept);
    }
  }

  lemma FilteredStep(before: seq<Endpoint>, last: Endpoint, kept: seq<Name>)
    requires Providers(Filter(Served(kept), before)) == Filter(Kept(kept), Providers(before))
    ensures Providers(Filter(Served(kept), before) + if last.provider in kept then [last] else [])
         == Filter(Kept(kept), Providers(before) + if last.provider in Providers(before) then [] else [last.provider])
  {
    var served, names := Filter(Served(kept), before), Providers(before);
    var both := Filter(Kept(kept), names);
    assert served + [] == served && names + [] == names && both + [] == both;
    if last.provider in kept {
      ProvidersSnoc(served, last);
      assert last.provider in both <==> last.provider in names;
    }
    if last.provider !in names {
      FilterAppend(Kept(kept), names, [last.provider]);
      FilterSingle(last, kept);
    }
  }

  lemma ProvidersSnoc(es: seq<Endpoint>, e: Endpoint)
    ensures Providers(es + [e]) == Providers(es) + if e.provider in Providers(es) then [] else [e.provider]
  {
    NextProvider(es + [e], |es|);
    assert (es + [e])[..|es|] == es && (es + [e])[..|es| + 1] == es + [e];
  }

  lemma FilterSingle(e: Endpoint, kept: seq<Name>)
    ensures Filter(Served(kept), [e]) == if e.provider in kept then [e] else []
    ensures Filter(Kept(kept), [e.provider]) == if e.provider in kept then [e.provider] else []
  {
    assert [e][1..] == [] && [e.provider][1..] == [];
  }

  lemma KeptApart(a: seq<Name>, b: seq<Name>)
    requires forall x :: x in a ==> x !in b
    ensures Filter(Kept(a), a + b) == a
  {
    FilterAppend(Kept(a), a, b);
    forall i | 0 <= i < |a| ensures Kept(a)(a[i]) {
      var x := a[i];
      assert x in a;
    }
    AllKept(Kept(a), a);
    forall i | 0 <= i < |b| ensures !Kept(a)(b[i]) {
      var x := b[i];
      assert x in b;
    }
    NoneKept(Kept(a), b);
    assert a + [] == a;
  }

  lemma PrefixIsFilter(s: seq<Name>, n: nat)
    requires NoDup(s) && n <= |s|
    ensures Filter(Kept(s[..n]), s) == s[..n]
  {
    var a, b := s[..n], s[n..];
    assert s == a + b;
    forall x | x in a ensures x !in b {
      var i :| 0 <= i < |a| && a[i] == x;
      assert forall j :: 0 <= j < |b| ==> b[j] == s[n + j] && s[i] != s[n + j];
    }
    KeptApart(a, b);
  }

  /** The provider order handed to requests lists exactly the admitted providers, once each, in
      rank order. */
  lemma OrderIsAdmitted(p: Policy, es: seq<Endpoint>)
    requires Resolve(p, es).Some?
    ensures Providers(Resolve(p, es).value) == Admitted(p, es)
    ensures NoDup(Admitted(p, es)) && |Admitted(p, es)| <= p.limit
  {
    var ranked := Ranked(p, es);
    var all := Providers(ranked);
    var n := if p.limit <= |all| then p.limit else |all|;
    assert all[..n] == Admitted(p, es);
    FirstSeenOfFiltered(ranked, all[..n]);
    PrefixIsFilter(all, n);
  }

  // ----- nobody better is left out -----

  /** Where a provider first appears. */
  lemma {:induction false} FirstAppearance(es: seq<Endpoint>, i: nat) returns (k: nat)
    requires i < |Providers(es)|
    ensures k < |es| && es[k].provider == Providers(es)[i]
    ensures forall j :: 0 <= j < k ==> es[j].provider in Providers(es)[..i]
    decreases |es|
  {
    var before, last := es[..|es| - 1], es[|es| - 1];
    assert es == before + [last];
    ProvidersSnoc(before, last);
    var seen := Providers(before);
    if i < |seen| {
      k := FirstAppearance(before, i);
      assert Providers(es)[..i] == seen[..i];
    } else {
      k := |es| - 1;
      assert Providers(es)[..i] == seen;
      forall j | 0 <= j < k ensures es[j].provider in seen {
        assert MapSeq(PROVIDER_OF, before)[j] == es[j].provider;
        assert MapSeq(PROVIDER_OF, before)[j] in MapSeq(PROVIDER_OF, before);
      }
    }
  }

  /** Providers are ranked by their best endpoint: some endpoint of an earlier provider ranks no
      worse than every endpoint of a later one. In particular no provider that is left out has an
      endpoint better than the best of one that is admitted. */
  lemma EarlierIsNoWorse(p: Policy, es: seq<Endpoint>, i: nat, j: nat) returns (best: Endpoint)
    requires i < j < |Providers(Ranked(p, es))|
    ensures best in Ranked(p, es) && best.provider == Providers(Ranked(p, es))[i]
    ensures forall e :: e in Ranked(p, es) && e.provider == Providers(Ranked(p, es))[j] ==> RanksBefore(p, best, e)
  {
    var ranked := Ranked(p, es);
    var a := FirstAppearance(ranked, i);
    best := ranked[a];
    RankingIsPreorder(p);
    SortSorts(Filter(Eligible(p), es), Ranking(p));
    forall e | e in ranked && e.provider == Providers(ranked)[j] ensures RanksBefore(p, best, e) {
      var k :| 0 <= k < |ranked| && ranked[k] == e;
      AppearsLater(ranked, i, j, a, k);
      assert Ranking(p)(ranked[a], ranked[k]);
    }
  }

  lemma AppearsLater(es: seq<Endpoint>, i: nat, j: nat, a: nat, k: nat)
    requires i < j < |Providers(es)| && a < |es| && k < |es|
    requires es[a].provider == Providers(es)[i] && es[k].provider == Providers(es)[j]
    requires forall x :: 0 <= x < a ==> es[x].provider in Providers(es)[..i]
    ensures a < k
  {
    LaterProvider(Providers(es), i, j);
  }

  lemma LaterProvider(names: seq<Name>, i: nat, j: nat)
    requires NoDup(names) && i < j < |names|
    ensures names[j] !in names[..i] && names[j] != names[i]
  {
    assert forall x :: 0 <= x < i ==> names[..i][x] == names[x] && names[x] != names[j];
  }

  // ----- who may serve -----

  /** Some eligible endpoint of another provider `r` ranks before every eligible one of `q`. */
  ghost predicate Outranks(p: Policy, es: seq<Endpoint>, r: Name, q: Name) {
    r != q && exists a :: OffersBest(p, es, a, r, q)
  }

  ghost predicate OffersBest(p: Policy, es: seq<Endpoint>, a: Endpoint, r: Name, q: Name) {
    && a in es && IsEligible(p, a) && a.provider == r
    && forall b :: b in es && IsEligible(p, b) && b.provider == q ==> RanksBefore(p, a, b)
  }

  /** The providers that outrank `q`. */
  ghost function Better(p: Policy, es: seq<Endpoint>, q: Name): set<Name> {
    set a | a in es && Outranks(p, es, a.provider, q) :: a.provider
  }

  lemma RankedIsEligible(p: Policy, es: seq<Endpoint>, e: Endpoint)
    ensures e in Ranked(p, es) <==> e in es && IsEligible(p, e)
  {
    assert Eligible(p)(e) <==> IsEligible(p, e);
  }

  lemma ProviderIsListed(p: Policy, es: seq<Endpoint>, e: Endpoint) returns (i: nat)
    requires e in es && IsEligible(p, e)
    ensures i < |Providers(Ranked(p, es))| && Providers(Ranked(p, es))[i] == e.provider
  {
    var ranked := Ranked(p, es);
    RankedIsEligible(p, es, e);
    var k :| 0 <= k < |ranked| && ranked[k] == e;
    var names := MapSeq(PROVIDER_OF, ranked);
    assert names[k] == e.provider && names[k] in names;
    assert e.provider in Providers(ranked);
    i :| 0 <= i < |Providers(ranked)| && Providers(ranked)[i] == e.provider;
  }

  lemma EarlierOutranks(p: Policy, es: seq<Endpoint>, i: nat, j: nat)
    requires i < j < |Providers(Ranked(p, es))|
    ensures var names := Providers(Ranked(p, es));
            Outranks(p, es, names[i], names[j]) && names[i] in Better(p, es, names[j])
  {
    var names := Providers(Ranked(p, es));
    var best := EarlierIsNoWorse(p, es, i, j);
    RankedIsEligible(p, es, best);
    forall b | b in es && IsEligible(p, b) && b.provider == names[j] ensures RanksBefore(p, best, b) {
      RankedIsEligible(p, es, b);
    }
    LaterProvider(names, i, j);
    assert OffersBest(p, es, best, names[i], names[j]);
  }

  /** What outranks a provider is not outranked by any of its endpoints. */
  lemma OffersBestIsUnbeaten(p: Policy, es: seq<Endpoint>, a: Endpoint, r: Name, b: Endpoint)
    requires r != b.provider && OffersBest(p, es, a, r, b.provider) && b in Ranked(p, es)
    ensures a in Ranked(p, es) && !RanksBefore(p, b, a)
  {
    RankedIsEligible(p, es, a);
    RankedIsEligible(p, es, b);
    assert RanksBefore(p, a, b);
  }

  lemma LaterIsBeaten(p: Policy, es: seq<Endpoint>, a: Endpoint, i: nat, j: nat)
    requires i < |Providers(Ranked(p, es))| && j < |Providers(Ranked(p, es))|
    requires var names := Providers(Ranked(p, es)); names[i] != names[j] && OffersBest(p, es, a, names[i], names[j])
    ensures i < j
  {
    if j < i {
      var best := EarlierIsNoWorse(p, es, j, i);
      OffersBestIsUnbeaten(p, es, a, Providers(Ranked(p, es))[i], best);
    }
  }

  lemma OutrankingIsEarlier(p: Policy, es: seq<Endpoint>, r: Name, j: nat)
    requires j < |Providers(Ranked(p, es))| && Outranks(p, es, r, Providers(Ranked(p, es))[j])
    ensures r in Providers(Ranked(p, es))[..j]
  {
    var names := Providers(Ranked(p, es));
    var a :| OffersBest(p, es, a, r, names[j]);
    var i := ProviderIsListed(p, es, a);
    LaterIsBeaten(p, es, a, i, j);
    assert names[..j][i] == r;
  }

  lemma {:induction false} DistinctCount(names: seq<Name>, j: nat, all: set<Name>)
    requires NoDup(names) && j <= |names| && forall x :: x in all <==> x in names[..j]
    ensures |all| == j
  {
    if j > 0 {
      var last := names[j - 1];
      assert names[..j] == names[..j - 1] + [last];
      assert last !in names[..j - 1] by {
        assert forall i :: 0 <= i < j - 1 ==> names[..j - 1][i] == names[i] && names[i] != names[j - 1];
      }
      DistinctCount(names, j - 1, all - {last});
    } else {
      assert names[..0] == [];
      assert all == {} by {
        forall x ensures x !in all { assert x !in names[..0]; }
      }
    }
  }

  /** A provider's place in the order is the number of providers that outrank it. */
  lemma PlaceIsCount(p: Policy, es: seq<Endpoint>, j: nat)
    requires j < |Providers(Ranked(p, es))|
    ensures |Better(p, es, Providers(Ranked(p, es))[j])| == j
  {
    var names := Providers(Ranked(p, es));
    var better := Better(p, es, names[j]);
    forall r ensures r in better <==> r in names[..j] {
      if r in better { OutrankingIsEarlier(p, es, r, j); }
      if r in names[..j] {
        var i :| 0 <= i < j && names[..j][i] == r;
        EarlierOutranks(p, es, i, j);
      }
    }
    DistinctCount(names, j, better);
  }

  /** An endpoint may serve exactly when it is eligible and fewer than `limit` other providers have
      an eligible endpoint that ranks before all of its provider's. */
  lemma ChainIsExact(p: Policy, es: seq<Endpoint>, e: Endpoint)
    requires Resolve(p, es).Some?
    ensures e in Resolve(p, es).value <==> e in es && IsEligible(p, e) && |Better(p, es, e.provider)| < p.limit
  {
    RankedIsEligible(p, es, e);
    if e in es && IsEligible(p, e) {
      var j := ProviderIsListed(p, es, e);
      PlaceIsCount(p, es, j);
      TakenIff(Providers(Ranked(p, es)), p.limit, j);
    }
    assert e in Resolve(p, es).value <==> e in Ranked(p, es) && Served(Admitted(p, es))(e);
  }

  lemma TakenIff(names: seq<Name>, n: nat, j: nat)
    requires NoDup(names) && j < |names|
    ensures names[j] in Take(n, names) <==> j < n
  {
    if j < n { assert Take(n, names)[j] == names[j]; }
  }

  // ----- the first party -----

  /** Whenever the first party has an eligible endpoint it leads both the chain and the order. */
  lemma FirstPartyLeads(p: Policy, es: seq<Endpoint>, e: Endpoint)
    requires p.firstParty.Some? && p.limit >= 1
    requires e in es && IsEligible(p, e) && p.firstParty == Some(e.provider)
    ensures Resolve(p, es).Some? && Resolve(p, es).value != []
    ensures Resolve(p, es).value[0].provider == e.provider
    ensures Admitted(p, es) != [] && Admitted(p, es)[0] == e.provider
  {
    RankedHead(p, es, e);
    var ranked := Ranked(p, es);
    HeadProvider(ranked);
    var admitted := Admitted(p, es);
    assert admitted[0] == e.provider;
    HeadIsServed(ranked, admitted);
  }

  lemma RankedHead(p: Policy, es: seq<Endpoint>, e: Endpoint)
    requires p.firstParty == Some(e.provider) && e in es && IsEligible(p, e)
    ensures Ranked(p, es) != [] && Ranked(p, es)[0].provider == e.provider
  {
    var ranked := Ranked(p, es);
    assert e in ranked;
    RankingIsPreorder(p);
    SortSorts(Filter(Eligible(p), es), Ranking(p));
    var k :| 0 <= k < |ranked| && ranked[k] == e;
    assert k == 0 || Ranking(p)(ranked[0], ranked[k]);
  }

  lemma HeadIsServed(ranked: seq<Endpoint>, admitted: seq<Name>)
    requires ranked != [] && admitted != [] && admitted[0] == ranked[0].provider
    ensures Filter(Served(admitted), ranked) != [] && Filter(Served(admitted), ranked)[0] == ranked[0]
  {
    var x := admitted[0];
    assert x in admitted;
    assert Served(admitted)(ranked[0]);
  }

  lemma {:induction false} HeadProvider(es: seq<Endpoint>)
    requires es != []
    ensures Providers(es) != [] && Providers(es)[0] == es[0].provider
    decreases |es|
  {
    var before, last := es[..|es| - 1], es[|es| - 1];
    assert es == before + [last];
    ProvidersSnoc(before, last);
    if before != [] {
      HeadProvider(before);
      assert before[0] == es[0];
    } else {
      assert Providers([]) == [];
    }
  }
}
