/** Which provider endpoints may serve a candidate: the eligible ones of the first few distinct
    providers, first party first; and the catalog entry pinned to them. */
module ProviderChain {
  import opened Prelude
  import opened Sorting

  /** How many providers may serve a pinned entry. */
  const PROVIDER_CHAIN_LIMIT: nat := 3

  /** An endpoint; a missing price sorts last. */
  datatype Endpoint = Endpoint(
    provider: Name, parameters: set<Name>, quantization: Name,
    promptPrice: Option<real>, completionPrice: Option<real>, uptime: real)

  /** What is configured for a candidate. */
  datatype Policy = Policy(firstParty: Option<Name>, required: set<Name>, excluded: set<Name>, limit: nat)

  datatype Pinned = Pinned(
    prompt: real, completion: real, supported: set<Name>, firstPartyAvailable: bool, order: seq<Name>,
    quantizations: seq<Name>, chain: seq<Endpoint>)

  predicate IsEligible(p: Policy, e: Endpoint) { p.required <= e.parameters && e.quantization !in p.excluded }

  function Eligible(p: Policy): Endpoint -> bool { (e: Endpoint) => IsEligible(p, e) }

  predicate Cheaper(a: Option<real>, b: Option<real>) { a.Some? && (b.None? || a.value < b.value) }

  /** First party, completion price, prompt price, uptime, name. */
  predicate RanksBefore(p: Policy, a: Endpoint, b: Endpoint) {
    var fa, fb := p.firstParty == Some(a.provider), p.firstParty == Some(b.provider);
    if fa != fb then fa
    else if a.completionPrice != b.completionPrice then Cheaper(a.completionPrice, b.completionPrice)
    else if a.promptPrice != b.promptPrice then Cheaper(a.promptPrice, b.promptPrice)
    else if a.uptime != b.uptime then a.uptime > b.uptime
    else a.provider <= b.provider
  }

  function Ranking(p: Policy): (Endpoint, Endpoint) -> bool { (a: Endpoint, b: Endpoint) => RanksBefore(p, a, b) }

  const PROVIDER_OF: Endpoint -> Name := (e: Endpoint) => e.provider

  /** Each distinct provider of the endpoints once, in order. */
  function Providers(es: seq<Endpoint>): (r: seq<Name>)
    ensures NoDup(r)
  {
    FirstSeen(MapSeq(PROVIDER_OF, es))
  }

  function Take<T>(n: nat, s: seq<T>): seq<T> { if n <= |s| then s[..n] else s }

  function Served(admitted: seq<Name>): Endpoint -> bool { (e: Endpoint) => e.provider in admitted }

  function Ranked(p: Policy, es: seq<Endpoint>): seq<Endpoint> { Sort(Filter(Eligible(p), es), Ranking(p)) }

  function Admitted(p: Policy, es: seq<Endpoint>): seq<Name> { Take(p.limit, Providers(Ranked(p, es))) }

  /** The chain; none without a first-party pin or any eligible endpoint. */
  function Resolve(p: Policy, es: seq<Endpoint>): Option<seq<Endpoint>> {
    if p.firstParty.None? || Filter(Eligible(p), es) == [] then None
    else Some(Filter(Served(Admitted(p, es)), Ranked(p, es)))
  }

  // ----- as the program runs it -----

  method ResolveProviderChain(p: Policy, es: seq<Endpoint>) returns (chain: Option<seq<Endpoint>>)
    ensures chain == Resolve(p, es)
  {
    if p.firstParty.None? { return None; }
    var eligible := Filter(Eligible(p), es);
    if eligible == [] { return None; }
    var ranked := Sort(eligible, Ranking(p));
    var admitted := AdmitProviders(p.limit, ranked);
    chain := Some(Filter(Served(admitted), ranked));
  }

  /** The first `limit` distinct providers of the ranked list. */
  method AdmitProviders(limit: nat, ranked: seq<Endpoint>) returns (admitted: seq<Name>)
    ensures admitted == Take(limit, Providers(ranked))
  {
    admitted := [];
    for i := 0 to |ranked|
      invariant admitted == Take(limit, Providers(ranked[..i]))
    {
      AdmittedNext(limit, ranked, i);
      var slug := ranked[i].provider;
      if slug !in admitted {
        if |admitted| >= limit { continue; }
        admitted := admitted + [slug];
      }
    }
    assert ranked[..|ranked|] == ranked;
  }

  lemma AdmittedNext(limit: nat, ranked: seq<Endpoint>, i: nat)
    requires i < |ranked|
    ensures var slug, admitted := ranked[i].provider, Take(limit, Providers(ranked[..i]));
            Take(limit, Providers(ranked[..i + 1]))
              == if slug in admitted || |admitted| >= limit then admitted else admitted + [slug]
  {
    var slug, names := ranked[i].provider, Providers(ranked[..i]);
    NextProvider(ranked, i);
    TakeOneMore(limit, names, slug);
    if slug in names {
      assert names + [] == names;
    }
  }

  lemma TakeOneMore(limit: nat, names: seq<Name>, name: Name)
    ensures Take(limit, names + [name]) == if |names| < limit then names + [name] else Take(limit, names)
  {
  }

  lemma NextProvider(es: seq<Endpoint>, i: nat)
    requires i < |es|
    ensures Providers(es[..i + 1])
         == Providers(es[..i]) + if es[i].provider in Providers(es[..i]) then [] else [es[i].provider]
  {
    var names := MapSeq(PROVIDER_OF, es[..i + 1]);
    assert names[..i] == MapSeq(PROVIDER_OF, es[..i]);
    assert names[i] == es[i].provider;
  }

  method ProviderOrderFromChain(chain: seq<Endpoint>) returns (order: seq<Name>)
    ensures order == Providers(chain)
  {
    order := [];
    var claimed: set<Name> := {};
    for i := 0 to |chain|
      invariant order == Providers(chain[..i])
      invariant forall x :: x in claimed <==> x in order
    {
      NextProvider(chain, i);
      if chain[i].provider in claimed { continue; }
      claimed := claimed + {chain[i].provider};
      order := order + [chain[i].provider];
    }
    assert chain[..|chain|] == chain;
  }

  const QUANTIZATION_OF: Endpoint -> Name := (e: Endpoint) => e.quantization
  const ASCENDING: (Name, Name) -> bool := (a: Name, b: Name) => a <= b

  /** The quantizations of the chain, each once and in order. */
  function ProviderQuantizationsFromChain(chain: seq<Endpoint>): (r: seq<Name>)
    ensures forall i, j :: 0 <= i < j < |r| ==> r[i] < r[j]
    ensures forall x :: x in r <==> exists e :: e in chain && e.quantization == x
  {
    var seen := FirstSeen(MapSeq(QUANTIZATION_OF, chain));
    var r := Sort(seen, ASCENDING);
    SortSorts(seen, ASCENDING);
    NoDupPermutes(seen, r);
    QuantizationsExact(chain);
    assert forall i, j :: 0 <= i < j < |r| ==> ASCENDING(r[i], r[j]) && r[i] != r[j];
    r
  }

  lemma QuantizationsExact(chain: seq<Endpoint>)
    ensures forall x :: x in MapSeq(QUANTIZATION_OF, chain) <==> exists e :: e in chain && e.quantization == x
  {
    var names := MapSeq(QUANTIZATION_OF, chain);
    forall e | e in chain ensures e.quantization in names {
      var i :| 0 <= i < |chain| && chain[i] == e;
      assert names[i] == e.quantization;
    }
    forall x | x in names ensures exists e :: e in chain && e.quantization == x {
      var i :| 0 <= i < |names| && names[i] == x;
      assert chain[i] in chain;
    }
  }

  const PROMPT_PRICE: Endpoint -> Option<real> := (e: Endpoint) => e.promptPrice
  const COMPLETION_PRICE: Endpoint -> Option<real> := (e: Endpoint) => e.completionPrice

  /** The highest price on the chain; none when no endpoint is priced. */
  method HighestPrice(price: Endpoint -> Option<real>, chain: seq<Endpoint>) returns (highest: Option<real>)
    ensures highest.None? <==> forall e :: e in chain ==> price(e).None?
    ensures highest.Some? ==> exists e :: e in chain && price(e) == highest
    ensures highest.Some? ==> forall e :: e in chain && price(e).Some? ==> price(e).value <= highest.value
  {
    highest := None;
    for i := 0 to |chain|
      invariant highest.None? <==> forall j :: 0 <= j < i ==> price(chain[j]).None?
      invariant highest.Some? ==> exists j :: 0 <= j < i && price(chain[j]) == highest
      invariant highest.Some? ==>
                  forall j :: 0 <= j < i && price(chain[j]).Some? ==> price(chain[j]).value <= highest.value
    {
      var here := price(chain[i]);
      if here.Some? && (highest.None? || here.value > highest.value) { highest := here; }
    }
    forall e | e in chain ensures exists j :: 0 <= j < |chain| && chain[j] == e { }
    if highest.Some? {
      var j :| 0 <= j < |chain| && price(chain[j]) == highest;
      assert chain[j] in chain;
    }
  }

  /** The parameters every endpoint of the chain supports. */
  method CommonParameters(chain: seq<Endpoint>) returns (common: set<Name>)
    requires chain != []
    ensures forall x :: x in common <==> forall i :: 0 <= i < |chain| ==> x in chain[i].parameters
  {
    common := chain[0].parameters;
    for i := 1 to |chain|
      invariant forall x :: x in common <==> forall j :: 0 <= j < i ==> x in chain[j].parameters
    {
      common := common * chain[i].parameters;
    }
  }

  /** An entry bound to a chain: its prices are attained and bound every priced endpoint that may
      serve, and it claims exactly the parameters that every endpoint supports. */
  ghost predicate PinnedTo(p: Policy, chain: seq<Endpoint>, n: Pinned) {
    && n.chain == chain && n.order == Providers(chain)
    && (forall e :: e in chain ==> e.promptPrice.Some? ==> e.promptPrice.value <= n.prompt)
    && (forall e :: e in chain ==> e.completionPrice.Some? ==> e.completionPrice.value <= n.completion)
    && (exists e :: e in chain && e.promptPrice == Some(n.prompt))
    && (exists e :: e in chain && e.completionPrice == Some(n.completion))
    && (forall x :: x in n.supported <==> forall i :: 0 <= i < |chain| ==> x in chain[i].parameters)
    && n.quantizations == ProviderQuantizationsFromChain(chain)
    && (n.firstPartyAvailable <==> exists e :: e in chain && p.firstParty == Some(e.provider))
  }

  ghost predicate Unpriced(chain: seq<Endpoint>) {
    (forall e :: e in chain ==> e.promptPrice.None?) || (forall e :: e in chain ==> e.completionPrice.None?)
  }

  method PinChain(p: Policy, chain: seq<Endpoint>) returns (entry: Option<Pinned>)
    requires chain != []
    ensures entry.None? <==> Unpriced(chain)
    ensures entry.Some? ==> PinnedTo(p, chain, entry.value)
  {
    var prompt := HighestPrice(PROMPT_PRICE, chain);
    var completion := HighestPrice(COMPLETION_PRICE, chain);
    assert forall e :: PROMPT_PRICE(e) == e.promptPrice && COMPLETION_PRICE(e) == e.completionPrice;
    if prompt.None? || completion.None? { return None; }
    var supported := CommonParameters(chain);
    var order := ProviderOrderFromChain(chain);
    var available := exists e :: e in chain && p.firstParty == Some(e.provider);
    var quantizations := ProviderQuantizationsFromChain(chain);
    entry := Some(Pinned(prompt.value, completion.value, supported, available, order, quantizations, chain));
  }

  lemma ChainIsEligible(p: Policy, es: seq<Endpoint>, e: Endpoint)
    requires Resolve(p, es).Some? && e in Resolve(p, es).value
    ensures IsEligible(p, e)
  {
    assert e in Ranked(p, es) && Eligible(p)(e);
  }

  /** Every required parameter is supported by all of the chain. */
  lemma RequiredIsSupported(p: Policy, es: seq<Endpoint>, n: Pinned)
    requires Resolve(p, es).Some? && PinnedTo(p, Resolve(p, es).value, n)
    ensures p.required <= n.supported
  {
    var chain := Resolve(p, es).value;
    forall x | x in p.required ensures x in n.supported {
      forall i | 0 <= i < |chain| ensures x in chain[i].parameters {
        ChainIsEligible(p, es, chain[i]);
      }
    }
  }

  /** No quantization of the chain is an excluded one. */
  lemma ExcludedIsNotAllowed(p: Policy, es: seq<Endpoint>, x: Name)
    requires Resolve(p, es).Some? && x in ProviderQuantizationsFromChain(Resolve(p, es).value)
    ensures x !in p.excluded
  {
    var chain := Resolve(p, es).value;
    var e :| e in chain && e.quantization == x;
    ChainIsEligible(p, es, e);
  }

  /** An eligible endpoint and room for a provider make a chain. */
  lemma ChainIsNotEmpty(p: Policy, es: seq<Endpoint>)
    requires Resolve(p, es).Some? && p.limit > 0
    ensures Resolve(p, es).value != []
  {
    var ranked := Ranked(p, es);
    var names := MapSeq(PROVIDER_OF, ranked);
    assert ranked[0] in ranked && names[0] in names;
    assert names[0] in Providers(ranked);
    var x := Providers(ranked)[0];
    assert x in Providers(ranked) && x in names;
    var k :| 0 <= k < |names| && names[k] == x;
    assert Admitted(p, es)[0] == x && x in Admitted(p, es);
    var e := ranked[k];
    assert e in ranked && Served(Admitted(p, es))(e);
  }

  /** The policy under which entries are pinned. */
  function Bounded(p: Policy): Policy { p.(limit := PROVIDER_CHAIN_LIMIT) }

  /** The catalog entry of a candidate: the required parameters survive the intersection, and no
      excluded quantization is allowed. */
  method BuildPinnedEntry(p: Policy, es: seq<Endpoint>) returns (entry: Option<Pinned>)
    ensures entry.None? <==> Resolve(Bounded(p), es).None? || Unpriced(Resolve(Bounded(p), es).value)
    ensures entry.Some? ==> PinnedTo(p, Resolve(Bounded(p), es).value, entry.value)
    ensures entry.Some? ==> p.required <= entry.value.supported
    ensures entry.Some? ==> forall x :: x in entry.value.quantizations ==> x !in p.excluded
  {
    var resolved := ResolveProviderChain(Bounded(p), es);
    if resolved.None? { return None; }
    ChainIsNotEmpty(Bounded(p), es);
    entry := PinChain(p, resolved.value);
    if entry.Some? {
      RequiredIsSupported(Bounded(p), es, entry.value);
      forall x | x in entry.value.quantizations ensures x !in p.excluded {
        ExcludedIsNotAllowed(Bounded(p), es, x);
      }
    }
  }
}
