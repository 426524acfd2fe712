/** When a candidate can still be finished: exactly while the reservations lost to refused
    settlements add up to no more than the slack. */
module Finishing {
  import opened Prelude
  import opened Ledger
  import opened LedgerLaws

  ghost predicate Finishes(c: Config, s: State, after: seq<Op>, m: Name)
    requires Keyed(c, s)
  {
    DoFinish(c, Run(c, s, after), m).1.Finished?
  }

  /** The worst case of the reservation a settlement of this amount takes off the list. */
  function PoppedWorst(a: Account, x: real, eps: real): real {
    var i := Find(a.reservations, x, eps);
    if i < |a.reservations| then a.reservations[i].worst else 0.0
  }

  /** The worst cases of all reservations of `m` that the run took off the list only to refuse
      their settlement. */
  function RefusedWorst(c: Config, s: State, ops: seq<Op>, m: Name): real
    requires Keyed(c, s) && m in c.caps
    decreases |ops|
  {
    if ops == [] then 0.0
    else
      var (t, out) := Step(c, s, ops[0]);
      (if RefusedAfterPop(out, ops[0], m) then PoppedWorst(s.accounts[m], ops[0].reservation, c.eps) else 0.0)
      + RefusedWorst(c, t, ops[1..], m)
  }

  lemma {:induction false} StuckIsRefused(c: Config, s: State, ops: seq<Op>, m: Name)
    requires Keyed(c, s) && m in c.caps
    ensures Stuck(Run(c, s, ops).accounts[m]) == Stuck(s.accounts[m]) + RefusedWorst(c, s, ops, m)
    decreases |ops|
  {
    if ops != [] {
      StepStuck(c, s, ops[0], m);
      StuckIsRefused(c, Step(c, s, ops[0]).0, ops[1..], m);
    }
  }

  /** Settling the oldest reservation at no cost succeeds and leaves nothing stuck behind. */
  lemma SettleOldestFree(c: Config, s: State, k: nat, m: Name) returns (op: Op)
    requires 0.0 <= c.eps && Inv(c, s, k) && m in c.caps && s.accounts[m].reservations != []
    ensures op.Reconcile? && op.model == m
    ensures var (t, out) := Step(c, s, op);
            && out.Settled? && t.finished == s.finished
            && t.accounts[m].reservations == s.accounts[m].reservations[1..]
            && Stuck(t.accounts[m]) == Stuck(s.accounts[m])
  {
    var a := s.accounts[m];
    var oldest := a.reservations[0];
    op := Reconcile(m, oldest.worst, 0.0);
    assert AccountOk(a, c.caps[m], c.eps) && 0.0 <= oldest.worst;
    assert Matches(oldest, oldest.worst, c.eps);
    assert Find(a.reservations, oldest.worst, c.eps) == 0;
    assert Without(a.reservations, 0) == a.reservations[1..];
    StepStuck(c, s, op, m);
  }

  /** An unfinished candidate with at most the slack stuck can be finished: settle what is
      outstanding, then finish. */
  lemma {:induction false} DrainAndFinish(c: Config, s: State, k: nat, m: Name) returns (after: seq<Op>)
    requires c.Valid() && Inv(c, s, k) && m in c.caps && m !in s.finished && Stuck(s.accounts[m]) <= c.eps
    ensures Finishes(c, s, after, m)
    decreases |s.accounts[m].reservations|
  {
    after := [];
    if s.accounts[m].reservations != [] {
      var op := SettleOldestFree(c, s, k, m);
      StepKeepsInv(c, s, k, op);
      var t := Step(c, s, op).0;
      var rest := DrainAndFinish(c, t, k + 1, m);
      after := [op] + rest;
      assert after[1..] == rest;
    }
  }

  lemma FinishableFrom(c: Config, s: State, k: nat, m: Name)
    requires c.Valid() && Inv(c, s, k) && m in c.caps && m !in s.finished
    ensures (exists after :: Finishes(c, s, after, m)) <==> Stuck(s.accounts[m]) <= c.eps
  {
    if Stuck(s.accounts[m]) <= c.eps {
      var after := DrainAndFinish(c, s, k, m);
    } else {
      forall after ensures !Finishes(c, s, after, m) { StuckBlocksFinish(c, s, k, after, m); }
    }
  }

  /** After any run an unfinished candidate can still be finished, by some further operations,
      exactly when the reservations it lost to refused settlements add up to no more than the
      slack. */
  lemma FinishableIff(c: Config, ops: seq<Op>, m: Name)
    requires c.Valid() && m in c.caps && m !in Run(c, Initial(c), ops).finished
    ensures (exists after :: Finishes(c, Run(c, Initial(c), ops), after, m))
       <==> RefusedWorst(c, Initial(c), ops, m) <= c.eps
  {
    RefusedSoFar(c, ops, m);
    FinishableFrom(c, Run(c, Initial(c), ops), Settlements(c, Initial(c), ops), m);
  }

  lemma RefusedSoFar(c: Config, ops: seq<Op>, m: Name)
    requires c.Valid() && m in c.caps
    ensures Inv(c, Run(c, Initial(c), ops), Settlements(c, Initial(c), ops))
    ensures Stuck(Run(c, Initial(c), ops).accounts[m]) == RefusedWorst(c, Initial(c), ops, m)
  {
    InitialInv(c);
    RunKeepsInv(c, Initial(c), 0, ops);
    StuckIsRefused(c, Initial(c), ops, m);
  }

  /** The check a caller can make before settling: the cost is within the reservation and within
      the cap. It is met exactly when nothing gets stuck, so it keeps a candidate finishable; a
      settlement that fails it keeps it finishable only if the lost reservation still fits the
      slack. */
  lemma SettlementGuard(c: Config, ops: seq<Op>, m: Name, x: real, cost: real)
    requires c.Valid() && m in c.caps && 0.0 <= x && 0.0 <= cost && m !in Run(c, Initial(c), ops).finished
    requires var rs := Run(c, Initial(c), ops).accounts[m].reservations; Find(rs, x, c.eps) < |rs|
    ensures var s := Run(c, Initial(c), ops);
            var a := s.accounts[m];
            var worst := PoppedWorst(a, x, c.eps);
            var t := Step(c, s, Reconcile(m, x, cost)).0;
            var safe := cost <= worst + c.eps && a.actual + cost <= c.caps[m] + c.eps;
            && (RefusedAfterPop(Step(c, s, Reconcile(m, x, cost)).1, Reconcile(m, x, cost), m) <==> !safe)
            && ((exists after :: Finishes(c, t, after, m))
                <==> RefusedWorst(c, Initial(c), ops, m) + (if safe then 0.0 else worst) <= c.eps)
  {
    RefusedSoFar(c, ops, m);
    GuardFrom(c, Run(c, Initial(c), ops), Settlements(c, Initial(c), ops), m, x, cost);
  }

  lemma GuardFrom(c: Config, s: State, k: nat, m: Name, x: real, cost: real)
    requires c.Valid() && Inv(c, s, k) && m in c.caps && 0.0 <= x && 0.0 <= cost && m !in s.finished
    requires Find(s.accounts[m].reservations, x, c.eps) < |s.accounts[m].reservations|
    ensures var a := s.accounts[m];
            var worst := PoppedWorst(a, x, c.eps);
            var t := Step(c, s, Reconcile(m, x, cost)).0;
            var safe := cost <= worst + c.eps && a.actual + cost <= c.caps[m] + c.eps;
            && (RefusedAfterPop(Step(c, s, Reconcile(m, x, cost)).1, Reconcile(m, x, cost), m) <==> !safe)
            && ((exists after :: Finishes(c, t, after, m)) <==> Stuck(a) + (if safe then 0.0 else worst) <= c.eps)
  {
    var op := Reconcile(m, x, cost);
    StepStuck(c, s, op, m);
    StepKeepsInv(c, s, k, op);
    var (t, out) := Step(c, s, op);
    FinishableFrom(c, t, if out.Settled? then k + 1 else k, m);
  }

  // ----- both cases occur -----

  /** One candidate with an allowance of one, whose requests are priced by their completion limit. */
  function PlainConfig(eps: real): Config {
    Config([0], map[0 := 1.0], map[0 := 1.0], CatalogWorstCase(map[0 := 0.0], map[0 := 1.0]), eps)
  }

  /** One request of worst case `worst`, answered with more than it and the slack allow. */
  function Overcharge(eps: real, worst: real): seq<Op> {
    [Reserve(0, Payload(1, worst)), Reconcile(0, worst, worst + eps + 1.0)]
  }

  lemma OverchargedRun(eps: real, worst: real)
    requires 0.0 <= eps && 0.0 <= worst <= 1.0
    ensures var c, ops := PlainConfig(eps), Overcharge(eps, worst);
            var s := Step(c, Initial(c), ops[0]).0;
            && c.Valid() && Step(c, s, ops[1]).1 == Refused(CostExceedsReservation)
            && RefusedAfterPop(Step(c, s, ops[1]).1, ops[1], 0)
            && 0 !in Run(c, Initial(c), ops).finished && RefusedWorst(c, Initial(c), ops, 0) == worst
  {
    var c, ops := PlainConfig(eps), Overcharge(eps, worst);
    var s := Initial(c);
    assert s.accounts[0].own == 1.0 && c.worstCase(0, ops[0].payload) == worst;
    var s1 := Step(c, s, ops[0]).0;
    assert s1.accounts[0].reservations == [Reservation(worst, worst, 0.0)];
    assert Matches(s1.accounts[0].reservations[0], worst, eps);
    assert Find(s1.accounts[0].reservations, worst, eps) == 0;
    assert ops[1..] == [ops[1]] && ops[1..][1..] == [];
    var (s2, out) := Step(c, s1, ops[1]);
    assert out == Refused(CostExceedsReservation) && s2.finished == {};
    assert Run(c, s1, ops[1..]) == s2 && RefusedAfterPop(out, ops[1], 0);
    assert PoppedWorst(s1.accounts[0], worst, eps) == worst;
    assert RefusedWorst(c, s2, [], 0) == 0.0;
    assert RefusedWorst(c, s1, ops[1..], 0) == worst;
  }

  /** A refusal behind a pop, on a run that ends with it. It leaves the candidate finishable exactly
      when the request's worst case was within the slack: always if the request was free, and
      never if it was dear. */
  lemma OverchargedWitness(eps: real, worst: real)
    requires 0.0 <= eps && 0.0 <= worst <= 1.0
    ensures var c, ops := PlainConfig(eps), Overcharge(eps, worst);
            && c.Valid() && Step(c, Step(c, Initial(c), ops[0]).0, ops[1]).1 == Refused(CostExceedsReservation)
            && ((exists after :: Finishes(c, Run(c, Initial(c), ops), after, 0)) <==> worst <= eps)
  {
    OverchargedRun(eps, worst);
    FinishableIff(PlainConfig(eps), Overcharge(eps, worst), 0);
  }
}
