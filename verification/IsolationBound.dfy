/** The isolation bound is attained: for every number of settlements by one candidate, another that
    never drew carry gets exactly its own money less k * eps, and no cent more. */
module IsolationBound {
  import opened Prelude
  import opened Ledger
  import opened LedgerLaws
  import opened SlackBound

  // ----- a candidate that only looks on -----

  /** The ledger with one more candidate on it. */
  function With(s: State, n: Name, a: Account): State { s.(accounts := s.accounts[n := a]) }

  /** `d` has the candidates of `c`, with their caps and prices, and `n`. */
  ghost predicate AddsTo(c: Config, d: Config, n: Name) {
    && n !in c.caps && d.caps.Keys == c.caps.Keys + {n} && d.eps == c.eps
    && forall m :: m in c.caps ==> d.caps[m] == c.caps[m] && forall p :: d.worstCase(m, p) == c.worstCase(m, p)
  }

  ghost predicate AllBy(ops: seq<Op>, m: Name) { forall i :: 0 <= i < |ops| ==> ops[i].model == m }

  lemma StepFramed(c: Config, d: Config, s: State, op: Op, n: Name, a: Account)
    requires Keyed(c, s) && AddsTo(c, d, n) && op.model in c.caps
    ensures var (t, out) := Step(c, s, op);
            Keyed(d, With(s, n, a)) && Step(d, With(s, n, a), op) == (With(t, n, a), out)
  {
    var m := op.model;
    assert With(s, n, a).accounts[m] == s.accounts[m];
    var b := Step(c, s, op).0.accounts[m];
    assert s.accounts[n := a][m := b] == s.accounts[m := b][n := a];
  }

  /** A candidate that does nothing changes nothing for the others. */
  lemma {:induction false} RunFramed(c: Config, d: Config, s: State, ops: seq<Op>, m: Name, n: Name, a: Account)
    requires Keyed(c, s) && AddsTo(c, d, n) && m in c.caps && AllBy(ops, m)
    ensures Keyed(d, With(s, n, a))
    ensures Run(d, With(s, n, a), ops) == With(Run(c, s, ops), n, a)
    ensures Settlements(d, With(s, n, a), ops) == Settlements(c, s, ops)
    decreases |ops|
  {
    if ops != [] {
      assert ops[0].model == m;
      assert forall i :: 0 <= i < |ops| - 1 ==> ops[1..][i] == ops[i + 1];
      StepFramed(c, d, s, ops[0], n, a);
      RunFramed(c, d, Step(c, s, ops[0]).0, ops[1..], m, n, a);
    }
  }

  // ----- the run -----

  function TwoConfig(eps: real, k: nat): Config {
    var cap := 3.0 + Slack(eps, k);
    Config([0, 1], map[0 := 0.8, 1 := 0.8], map[0 := cap, 1 := cap],
           CatalogWorstCase(map[0 := 0.0, 1 := 0.0], map[0 := 1.0, 1 := 1.0]), eps)
  }

  /** The first candidate uses up the slack of `k` settlements. */
  function Draining(eps: real, k: nat): seq<Op> { if k == 0 then [Large(eps)] else Overspending(eps, k) }

  const LOOKER_ON: Account := Account(1.0, 0.0, 0.0, [])

  lemma {:induction false} RepeatedBy(op: Op, n: nat)
    ensures AllBy(Repeat(op, n), op.model)
  {
    if n > 0 { RepeatedBy(op, n - 1); }
  }

  lemma DrainingByFirst(eps: real, k: nat)
    ensures AllBy(Draining(eps, k), 0)
  {
    if k > 0 {
      RepeatedBy(FREE, k - 1);
      RepeatedBy(Charge(eps), k - 1);
    }
  }

  lemma DrainingLeads(eps: real, k: nat) returns (t: State)
    requires 0.0 <= eps
    ensures LooseConfig(eps, k).Valid() && t.carry == -Slack(eps, k) && 1 !in t.finished
    ensures Leads(LooseConfig(eps, k), Initial(LooseConfig(eps, k)), Draining(eps, k), t, k)
  {
    if k == 0 {
      LargeLeads(eps, k);
      t := Books(eps, 0, 0);
    } else {
      OverspendingLeads(eps, k);
      t := Overspent(eps, k);
    }
  }

  lemma TwoConfigAdds(eps: real, k: nat)
    requires 0.0 <= eps
    ensures LooseConfig(eps, k).Valid() && TwoConfig(eps, k).Valid()
    ensures AddsTo(LooseConfig(eps, k), TwoConfig(eps, k), 1)
    ensures Initial(TwoConfig(eps, k)) == With(Initial(LooseConfig(eps, k)), 1, LOOKER_ON)
  {
    SlackNonNegative(eps, k);
    TwoAccounts(LooseConfig(eps, k), TwoConfig(eps, k));
  }

  lemma TwoAccounts(c: Config, d: Config)
    requires c.Valid() && d.Valid() && c.caps.Keys == {0} && d.caps.Keys == {0, 1}
    requires c.Allowance(0) == 1.0 && d.Allowance(0) == 1.0 && d.Allowance(1) == 1.0
    ensures Initial(d) == With(Initial(c), 1, LOOKER_ON)
  {
    assert Initial(d).accounts == With(Initial(c), 1, LOOKER_ON).accounts;
  }

  /** For every slack and every number k of settlements there is a run in which a candidate that has
      done nothing is granted a request exactly if its worst case is within its own money less
      k * eps. */
  lemma IsolationIsExact(eps: real, k: nat, worst: real)
    requires 0.0 <= eps && 0.0 <= worst
    ensures var c, ops := TwoConfig(eps, k), Draining(eps, k);
            && c.Valid() && c.eps == eps && NeverDrewCarry(c, Initial(c), ops, 1)
            && Settlements(c, Initial(c), ops) == k
            && var s := Run(c, Initial(c), ops);
               && 1 !in s.finished && s.accounts[1].own == 1.0
               && (DoReserve(c, s, 1, Payload(0, worst)).1 == Granted(worst)
                   <==> worst <= s.accounts[1].own - (Slack(eps, k) - eps))
  {
    var c, d, ops := LooseConfig(eps, k), TwoConfig(eps, k), Draining(eps, k);
    TwoConfigAdds(eps, k);
    DrainingByFirst(eps, k);
    var t := DrainingLeads(eps, k);
    RunFramed(c, d, Initial(c), ops, 0, 1, LOOKER_ON);
    LooksOn(d, ops);
    GrantedIff(eps, k, With(t, 1, LOOKER_ON), worst);
  }

  lemma LooksOn(d: Config, ops: seq<Op>)
    requires d.Valid() && 1 in d.caps && AllBy(ops, 0)
    ensures NeverDrewCarry(d, Initial(d), ops, 1)
  {
    assert [] + ops == ops;
    RunAppend(d, Initial(d), [], ops, 1);
  }

  lemma GrantedIff(eps: real, k: nat, s: State, worst: real)
    requires 0.0 <= eps && 0.0 <= worst && Keyed(TwoConfig(eps, k), s)
    requires s.accounts[1] == LOOKER_ON && s.carry == -Slack(eps, k) && 1 !in s.finished
    ensures DoReserve(TwoConfig(eps, k), s, 1, Payload(0, worst)).1 == Granted(worst)
       <==> worst <= s.accounts[1].own - (Slack(eps, k) - eps)
  {
    SlackNonNegative(eps, k);
    assert TwoConfig(eps, k).worstCase(1, Payload(0, worst)) == worst;
  }
}
