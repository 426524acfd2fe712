/** What the cost ledger guarantees over every run: conservation, exact spending bounds,
    isolation of candidates, and what a refused settlement leaves behind. */
module LedgerLaws {
  import opened Prelude
  import opened Ledger

  /** Money is conserved by every sequence of operations, refused ones included, and the
      pending total of a candidate always covers its outstanding reservations. */
  lemma Conservation(c: Config, ops: seq<Op>)
    requires c.Valid() && c.Listed()
    ensures var s := Run(c, Initial(c), ops);
            && Money(c, s) == TotalAllowance(c)
            && forall m :: m in c.caps ==> 0.0 <= Outstanding(s.accounts[m].reservations) <= s.accounts[m].pending
  {
    InitialInv(c);
    RunConserves(c, Initial(c), 0, ops);
    RunKeepsInv(c, Initial(c), 0, ops);
    var s := Run(c, Initial(c), ops);
    forall m | m in c.caps ensures 0.0 <= Outstanding(s.accounts[m].reservations) <= s.accounts[m].pending {
      OutstandingNonNegative(s.accounts[m].reservations);
    }
  }

  lemma {:induction false} SlackClosedForm(eps: real, k: nat)
    ensures Slack(eps, k) == (1 + k) as real * eps
  {
    if k > 0 {
      SlackClosedForm(eps, k - 1);
      var n := k as real;
      assert (1 + k) as real == n + 1.0;
      assert (n + 1.0) * eps == n * eps + eps;
    }
  }

  /** The exact price of the comparison slack: no candidate spends more than its cap plus
      `eps`, and after `k` settlements the pool is overdrawn, and the battle overspent, by at
      most Slack(eps, k) = (1 + k) * eps. With no slack, spent and promised money together
      respect the cap. */
  lemma SpendBound(c: Config, ops: seq<Op>)
    requires c.Valid() && c.Listed()
    ensures var s := Run(c, Initial(c), ops);
            var k := Settlements(c, Initial(c), ops);
            && (forall m :: m in c.caps ==> s.accounts[m].actual <= c.caps[m] + c.eps)
            && -Slack(c.eps, k) <= s.carry
            && TotalActual(c.models, s.accounts) <= TotalAllowance(c) + Slack(c.eps, k)
            && (c.eps == 0.0 ==> forall m :: m in c.caps ==>
                  s.accounts[m].actual + s.accounts[m].pending <= c.caps[m])
  {
    InitialInv(c);
    RunKeepsInv(c, Initial(c), 0, ops);
    Conservation(c, ops);
    ActualWithinWorth(c.models, Run(c, Initial(c), ops).accounts);
  }

  // ----- one request from reservation to settlement -----

  /** The account and pool after paying `cost` directly, own money first and carry second. */
  function PaidDirectly(s: State, m: Name, cost: real): State
    requires m in s.accounts
  {
    var a := s.accounts[m];
    var fromOwn := Min(cost, a.own);
    s.(accounts := s.accounts[m := a.(own := a.own - fromOwn, actual := a.actual + cost)],
       carry := s.carry - (cost - fromOwn))
  }

  /** The reservation a granted request of this worst case makes. */
  function NewReservation(a: Account, worst: real): Reservation {
    Reservation(worst, Min(worst, a.own), worst - Min(worst, a.own))
  }

  /** Every outstanding reservation from the first of this amount on is the same as the new one. */
  ghost predicate SameFromMatch(a: Account, worst: real, eps: real) {
    forall j :: Find(a.reservations, worst, eps) <= j < |a.reservations| ==>
      a.reservations[j] == NewReservation(a, worst)
  }

  /** Reserving a worst case and settling a smaller cost is only refused for the cap. It leaves the
      ledger as if the cost had been paid on the spot, what was set aside beyond it returning to
      where it came from, exactly when no older reservation of that amount is outstanding, or all
      from the first such on were split between own money and pool like the new one. A request that
      cost nothing then leaves no trace. */
  lemma ReserveThenSettle(c: Config, s: State, m: Name, worst: real, cost: real)
    requires Keyed(c, s) && m in c.caps && 0.0 <= c.eps && 0.0 <= s.accounts[m].own && 0.0 <= cost <= worst
    requires Admit(c, s, m, worst).1.Granted?
    ensures var (t, out) := DoReconcile(c, Admit(c, s, m, worst).0, m, worst, cost);
            if s.accounts[m].actual + cost <= c.caps[m] + c.eps then
              && out == Settled
              && (t == PaidDirectly(s, m, cost) <==> SameFromMatch(s.accounts[m], worst, c.eps))
              && (t == PaidDirectly(s, m, cost) && cost == 0.0 ==> t == s)
            else out == Refused(CapExceededAfterResponse)
  {
    var a, res := s.accounts[m], NewReservation(s.accounts[m], worst);
    var s1 := Admit(c, s, m, worst).0;
    var i := Find(a.reservations, worst, c.eps);
    assert s1.accounts[m].reservations == a.reservations + [res];
    FindSame(a.reservations, res, worst, c.eps);
    RotatedIff(a.reservations, i, res);
    if s.accounts[m].actual + cost <= c.caps[m] + c.eps { SettledInPlace(c, s, m, worst, cost, i); }
    assert cost == 0.0 ==> s.accounts[m := a] == s.accounts;
  }

  function WithReservations(s: State, m: Name, rs: seq<Reservation>): State
    requires m in s.accounts
  {
    s.(accounts := s.accounts[m := s.accounts[m].(reservations := rs)])
  }

  /** The state after the settlement, whichever reservation it took. */
  lemma SettledInPlace(c: Config, s: State, m: Name, worst: real, cost: real, i: nat)
    requires Keyed(c, s) && m in c.caps && 0.0 <= c.eps && 0.0 <= s.accounts[m].own && 0.0 <= cost <= worst
    requires Admit(c, s, m, worst).1.Granted? && s.accounts[m].actual + cost <= c.caps[m] + c.eps
    requires var a := s.accounts[m];
             i == Find(a.reservations + [NewReservation(a, worst)], worst, c.eps) <= |a.reservations|
    ensures var (t, out) := DoReconcile(c, Admit(c, s, m, worst).0, m, worst, cost);
            var rs := s.accounts[m].reservations + [NewReservation(s.accounts[m], worst)];
            && out == Settled && t.accounts[m].reservations == Without(rs, i)
            && (rs[i] == NewReservation(s.accounts[m], worst) ==>
                  t == WithReservations(PaidDirectly(s, m, cost), m, Without(rs, i)))
  {
  }

  lemma {:induction false} FindSame(rs: seq<Reservation>, r: Reservation, x: real, eps: real)
    requires Matches(r, x, eps)
    ensures Find(rs + [r], x, eps) == Find(rs, x, eps)
  {
    if rs != [] && !Matches(rs[0], x, eps) {
      assert (rs + [r])[1..] == rs[1..] + [r];
      FindSame(rs[1..], r, x, eps);
    }
  }

  /** Taking element `i` out of a list and putting `r` at its end leaves the list as it was exactly
      when everything from `i` on is `r`. */
  lemma RotatedIff(rs: seq<Reservation>, i: nat, r: Reservation)
    requires i <= |rs|
    ensures Without(rs + [r], i) == rs <==> forall j :: i <= j < |rs| ==> rs[j] == r
  {
    var all, out := rs + [r], Without(rs + [r], i);
    assert forall j :: 0 <= j < |rs| ==> out[j] == if j < i then rs[j] else all[j + 1];
    if out == rs { AllSameFrom(rs, i, r); }
  }

  lemma {:induction false} AllSameFrom(rs: seq<Reservation>, i: nat, r: Reservation)
    requires i <= |rs| && forall j :: i <= j < |rs| ==> rs[j] == (rs + [r])[j + 1]
    ensures forall j :: i <= j < |rs| ==> rs[j] == r
    decreases |rs| - i
  {
    if i < |rs| {
      AllSameFrom(rs, i + 1, r);
      assert rs[i] == (rs + [r])[i + 1];
    }
  }

  /** Two candidates, each with an allowance of one, and requests priced by their completion limit. */
  const PAIR: Config :=
    Config([0, 1], map[0 := 0.8, 1 := 0.8], map[0 := 2.0, 1 := 1.0],
           CatalogWorstCase(map[0 := 0.0, 1 := 0.0], map[0 := 1.0, 1 := 1.0]), 0.0)

  /** The second candidate has left its allowance to the pool, and the first holds a reservation of
      one against its own money. */
  function OneHeld(): State {
    State(map[0 := Account(0.0, 1.0, 0.0, [Reservation(1.0, 1.0, 0.0)]), 1 := Account(0.0, 0.0, 0.0, [])], 1.0, {1})
  }

  lemma OneIsAdmitted(s: State)
    requires s == State(map[0 := Account(1.0, 0.0, 0.0, []), 1 := Account(0.0, 0.0, 0.0, [])], 1.0, {1})
    ensures Keyed(PAIR, s) && Step(PAIR, s, Reserve(0, Payload(0, 1.0))) == (OneHeld(), Granted(1.0))
  {
    assert PAIR.worstCase(0, Payload(0, 1.0)) == 1.0;
    var (t, out) := Admit(PAIR, s, 0, 1.0);
    assert [] + [Reservation(1.0, 1.0, 0.0)] == [Reservation(1.0, 1.0, 0.0)];
    assert t.accounts == OneHeld().accounts && t.carry == 1.0;
  }

  lemma OneHeldIsReached()
    ensures PAIR.Valid() && Run(PAIR, Initial(PAIR), [Finish(1), Reserve(0, Payload(0, 1.0))]) == OneHeld()
  {
    var ops := [Finish(1), Reserve(0, Payload(0, 1.0))];
    var s := Initial(PAIR);
    assert s == State(map[0 := Account(1.0, 0.0, 0.0, []), 1 := Account(1.0, 0.0, 0.0, [])], 0.0, {});
    var s1 := State(map[0 := Account(1.0, 0.0, 0.0, []), 1 := Account(0.0, 0.0, 0.0, [])], 1.0, {1});
    assert Step(PAIR, s, ops[0]).0 == s1;
    OneIsAdmitted(s1);
    assert ops[1..] == [ops[1]] && ops[1..][1..] == [];
    assert Run(PAIR, s, ops) == Run(PAIR, s1, ops[1..]);
  }

  /** Then a second request of one, which only the pool can pay for, settled at no cost, gives back
      the own money of the older reservation: not what it took. */
  lemma OlderReservationIsSettled()
    ensures Keyed(PAIR, OneHeld()) && Admit(PAIR, OneHeld(), 0, 1.0).1 == Granted(1.0)
    ensures var (t, out) := DoReconcile(PAIR, Admit(PAIR, OneHeld(), 0, 1.0).0, 0, 1.0, 0.0);
            && out == Settled && t.accounts[0].own == 1.0 && t.carry == 0.0
            && OneHeld().accounts[0].own == 0.0 && OneHeld().carry == 1.0
            && t.accounts[0].reservations == [Reservation(1.0, 0.0, 1.0)]
  {
    var rs := [Reservation(1.0, 1.0, 0.0), Reservation(1.0, 0.0, 1.0)];
    var s := Admit(PAIR, OneHeld(), 0, 1.0).0;
    assert s.accounts[0] == Account(0.0, 2.0, 0.0, rs) && s.carry == 0.0;
    assert Matches(rs[0], 1.0, 0.0);
    assert Find(rs, 1.0, 0.0) == 0;
    assert Without(rs, 0) == [rs[1]];
  }

  // ----- the cap check after a response -----

  /** Some run of some ledger ends in a settlement refused by the cap check that follows a
      provider response. */
  ghost predicate CapBranchFires(c: Config, ops: seq<Op>, m: Name, x: real, cost: real) {
    c.Valid() && DoReconcile(c, Run(c, Initial(c), ops), m, x, cost).1 == Refused(CapExceededAfterResponse)
  }

  lemma CapBranchUnreachable(c: Config, ops: seq<Op>, m: Name, x: real, cost: real)
    requires c.Valid() && c.eps == 0.0
    ensures !CapBranchFires(c, ops, m, x, cost)
  {
    InitialInv(c);
    RunKeepsInv(c, Initial(c), 0, ops);
    if m in c.caps {
      var rs := Run(c, Initial(c), ops).accounts[m].reservations;
      var i := Find(rs, x, c.eps);
      if i < |rs| {
        OutstandingWithout(rs, i);
        assert WellFormed(Without(rs, i));
        OutstandingNonNegative(Without(rs, i));
      }
    }
  }

  /** One request reserved `eps` over the cap and answered `eps` over the reservation. */
  lemma CapBranchExample(eps: real) returns (c: Config, ops: seq<Op>)
    requires 0.0 < eps
    ensures c.eps == eps && CapBranchFires(c, ops, 0, 1.0 + eps, 1.0 + 2.0 * eps)
  {
    var price := map[0 := 0.0];
    c := Config([0], map[0 := 1.0], map[0 := 1.0], CatalogWorstCase(price, map[0 := 1.0]), eps);
    var p := Payload(1, 1.0 + eps);
    ops := [Reserve(0, p)];
    var s := Initial(c);
    assert s.accounts[0].own == 1.0;
    assert c.worstCase(0, p) == 1.0 + eps;
    var s1 := Step(c, s, ops[0]).0;
    assert ops[1..] == [];
    assert Run(c, s, ops) == s1;
    assert s1.accounts[0].reservations == [Reservation(1.0 + eps, 1.0, eps)];
    assert Find(s1.accounts[0].reservations, 1.0 + eps, eps) == 0;
  }

  /** The check "cap exceeded after provider response" can fire exactly when there is slack. */
  lemma CapBranchIffSlack(eps: real)
    requires 0.0 <= eps
    ensures (exists c: Config, ops, m, x, cost :: CapBranchFires(c, ops, m, x, cost) && c.eps == eps) <==> 0.0 < eps
  {
    if 0.0 < eps {
      var c, ops := CapBranchExample(eps);
    } else {
      forall c: Config, ops, m, x, cost | c.Valid() && c.eps == eps ensures !CapBranchFires(c, ops, m, x, cost) {
        CapBranchUnreachable(c, ops, m, x, cost);
      }
    }
  }

  // ----- refused settlements -----

  /** Money that is pending without a reservation to release it. */
  function Stuck(a: Account): real {
    a.pending - Outstanding(a.reservations)
  }

  /** A settlement of `m` refused after its reservation was taken off the list. */
  predicate RefusedAfterPop(out: Outcome, op: Op, m: Name) {
    op.Reconcile? && op.model == m
    && (out == Refused(CostExceedsReservation) || out == Refused(CapExceededAfterResponse))
  }

  lemma StepStuck(c: Config, s: State, op: Op, m: Name)
    requires Keyed(c, s) && m in c.caps
    ensures var (t, out) := Step(c, s, op);
            var a, b := s.accounts[m], t.accounts[m];
            if RefusedAfterPop(out, op, m) then
              var i := Find(a.reservations, op.reservation, c.eps);
              i < |a.reservations| && Stuck(b) == Stuck(a) + a.reservations[i].worst
            else Stuck(b) == Stuck(a)
  {
    var a := s.accounts[m];
    if op.model == m {
      match op
      case Reserve(_, p) =>
        var b := Step(c, s, op).0.accounts[m];
        OutstandingAppend(a.reservations, b.reservations[|a.reservations|..]);
        assert b.reservations == a.reservations + b.reservations[|a.reservations|..];
      case Reconcile(_, x, _) =>
        var i := Find(a.reservations, x, c.eps);
        if i < |a.reservations| {
          OutstandingWithout(a.reservations, i);
          assert Stuck(Popped(a, i)) == Stuck(a) + a.reservations[i].worst;
        }
      case Finish(_) =>
    }
  }

  /** No settlement of `m` in the run is refused after its pop. */
  ghost predicate CleanFor(c: Config, s: State, ops: seq<Op>, m: Name)
    requires Keyed(c, s)
    decreases |ops|
  {
    ops == [] ||
    var (t, out) := Step(c, s, ops[0]);
    !RefusedAfterPop(out, ops[0], m) && CleanFor(c, t, ops[1..], m)
  }

  lemma {:induction false} StuckOverRun(c: Config, s: State, k: nat, ops: seq<Op>, m: Name)
    requires c.Valid() && Inv(c, s, k) && m in c.caps
    ensures Stuck(s.accounts[m]) <= Stuck(Run(c, s, ops).accounts[m])
    ensures CleanFor(c, s, ops, m) ==> Stuck(Run(c, s, ops).accounts[m]) == Stuck(s.accounts[m])
    decreases |ops|
  {
    if ops != [] {
      var (t, out) := Step(c, s, ops[0]);
      StepKeepsInv(c, s, k, ops[0]);
      StepStuck(c, s, ops[0], m);
      StuckOverRun(c, t, if out.Settled? then k + 1 else k, ops[1..], m);
    }
  }

  /** Pending equals the sum of outstanding reservations until a settlement is refused after
      its reservation was popped. */
  lemma PendingIsOutstanding(c: Config, ops: seq<Op>, m: Name)
    requires c.Valid() && m in c.caps && CleanFor(c, Initial(c), ops, m)
    ensures var a := Run(c, Initial(c), ops).accounts[m]; a.pending == Outstanding(a.reservations)
  {
    InitialInv(c);
    StuckOverRun(c, Initial(c), 0, ops, m);
  }

  /** After such a refusal the popped money never returns: if it exceeds the slack, no later
      operation of anyone can ever finish the candidate. */
  lemma RefusalBlocksFinishForever(c: Config, before: seq<Op>, m: Name, x: real, cost: real, after: seq<Op>)
    requires c.Valid() && m in c.caps && x > 2.0 * c.eps
    requires RefusedAfterPop(Step(c, Run(c, Initial(c), before), Reconcile(m, x, cost)).1, Reconcile(m, x, cost), m)
    ensures var s := Run(c, Step(c, Run(c, Initial(c), before), Reconcile(m, x, cost)).0, after);
            !DoFinish(c, s, m).1.Finished?
  {
    InitialInv(c);
    RunKeepsInv(c, Initial(c), 0, before);
    RefusalBlocksFrom(c, Run(c, Initial(c), before), Settlements(c, Initial(c), before), m, x, cost, after);
  }

  lemma RefusalBlocksFrom(c: Config, s: State, k: nat, m: Name, x: real, cost: real, after: seq<Op>)
    requires c.Valid() && Inv(c, s, k) && m in c.caps && x > 2.0 * c.eps
    requires RefusedAfterPop(Step(c, s, Reconcile(m, x, cost)).1, Reconcile(m, x, cost), m)
    ensures !DoFinish(c, Run(c, Step(c, s, Reconcile(m, x, cost)).0, after), m).1.Finished?
  {
    StepStuck(c, s, Reconcile(m, x, cost), m);
    StepKeepsInv(c, s, k, Reconcile(m, x, cost));
    StuckBlocksFinish(c, Step(c, s, Reconcile(m, x, cost)).0, k, after, m);
  }

  lemma StuckBlocksFinish(c: Config, s: State, k: nat, after: seq<Op>, m: Name)
    requires c.Valid() && m in c.caps && Inv(c, s, k) && Stuck(s.accounts[m]) > c.eps
    ensures !DoFinish(c, Run(c, s, after), m).1.Finished?
  {
    StuckOverRun(c, s, k, after, m);
    RunKeepsInv(c, s, k, after);
    OutstandingNonNegative(Run(c, s, after).accounts[m].reservations);
  }

  // ----- isolation -----

  ghost predicate NoneOf(ops: seq<Op>, m: Name) {
    forall i :: 0 <= i < |ops| ==> ops[i].model != m
  }

  /** Operations on other candidates leave the account of `m` untouched. */
  lemma {:induction false} OthersLeaveAccount(c: Config, s: State, ops: seq<Op>, m: Name)
    requires Keyed(c, s) && m in c.caps && NoneOf(ops, m)
    ensures var t := Run(c, s, ops);
            t.accounts[m] == s.accounts[m] && (m in t.finished <==> m in s.finished)
    decreases |ops|
  {
    if ops != [] {
      assert ops[0].model != m;
      assert forall i :: 0 <= i < |ops| - 1 ==> ops[1..][i] == ops[i + 1];
      OthersLeaveAccount(c, Step(c, s, ops[0]).0, ops[1..], m);
    }
  }

  /** The operation, if it is a granted request of `m`, was paid from the own money of `m`. */
  ghost predicate PaidByOwn(c: Config, s: State, op: Op, m: Name)
    requires Keyed(c, s) && m in c.caps
  {
    op.Reserve? && op.model == m && Step(c, s, op).1.Granted? ==>
      Step(c, s, op).1.worst <= s.accounts[m].own
  }

  ghost predicate NeverDrewCarry(c: Config, s: State, ops: seq<Op>, m: Name)
    requires Keyed(c, s) && m in c.caps
    decreases |ops|
  {
    ops == [] || (PaidByOwn(c, s, ops[0], m) && NeverDrewCarry(c, Step(c, s, ops[0]).0, ops[1..], m))
  }

  ghost predicate OwnMoneyOnly(c: Config, a: Account, m: Name, k: nat)
    requires m in c.caps && m in c.estimates
  {
    && (forall i :: 0 <= i < |a.reservations| ==> a.reservations[i].carryUsed == 0.0)
    && a.Worth() <= c.Allowance(m) + (Slack(c.eps, k) - c.eps)
  }

  /** Granted within its own money, a request of `m` sets none of the pool aside. */
  lemma ReserveOwnMoneyOnly(c: Config, s: State, k: nat, m: Name, worst: real)
    requires c.Valid() && Inv(c, s, k) && m in c.caps && 0.0 <= worst && OwnMoneyOnly(c, s.accounts[m], m, k)
    requires Admit(c, s, m, worst).1.Granted? ==> worst <= s.accounts[m].own
    ensures OwnMoneyOnly(c, Admit(c, s, m, worst).0.accounts[m], m, k)
  {
  }

  /** A settlement moves at most the slack beyond what was set aside. */
  lemma SettleOwnMoneyOnly(c: Config, s: State, k: nat, m: Name, x: real, cost: real)
    requires c.Valid() && Inv(c, s, k) && m in c.caps && OwnMoneyOnly(c, s.accounts[m], m, k)
    ensures var (t, out) := DoReconcile(c, s, m, x, cost);
            OwnMoneyOnly(c, t.accounts[m], m, if out.Settled? then k + 1 else k)
  {
    var a := s.accounts[m];
    var i := Find(a.reservations, x, c.eps);
    if i < |a.reservations| {
      var res := a.reservations[i];
      assert AccountOk(a, c.caps[m], c.eps);
      assert res.carryUsed == 0.0 && res.worst == res.ownUsed;
      assert forall j :: 0 <= j < |a.reservations| - 1 ==>
        Without(a.reservations, i)[j] == a.reservations[if j < i then j else j + 1];
    }
  }

  lemma StepOwnMoneyOnly(c: Config, s: State, k: nat, op: Op, m: Name)
    requires c.Valid() && Inv(c, s, k) && m in c.caps
    requires OwnMoneyOnly(c, s.accounts[m], m, k) && PaidByOwn(c, s, op, m)
    ensures var (t, out) := Step(c, s, op);
            OwnMoneyOnly(c, t.accounts[m], m, if out.Settled? then k + 1 else k)
  {
    if op.model == m {
      match op
      case Reserve(_, p) =>
        if m !in s.finished && 0.0 <= p.maxTokens { ReserveOwnMoneyOnly(c, s, k, m, c.worstCase(m, p)); }
      case Reconcile(_, x, cost) => SettleOwnMoneyOnly(c, s, k, m, x, cost);
      case Finish(_) =>
    }
  }

  lemma {:induction false} RunOwnMoneyOnly(c: Config, s: State, k: nat, ops: seq<Op>, m: Name, last: State, n: nat)
    requires c.Valid() && Inv(c, s, k) && m in c.caps && OwnMoneyOnly(c, s.accounts[m], m, k)
    requires NeverDrewCarry(c, s, ops, m) && last == Run(c, s, ops) && n == k + Settlements(c, s, ops)
    ensures Inv(c, last, n) && OwnMoneyOnly(c, last.accounts[m], m, n)
    decreases |ops|
  {
    if ops != [] {
      var t, k' := FirstOwnMoneyOnly(c, s, k, ops, m);
      RunOwnMoneyOnly(c, t, k', ops[1..], m, last, n);
    }
  }

  lemma FirstOwnMoneyOnly(c: Config, s: State, k: nat, ops: seq<Op>, m: Name) returns (t: State, k': nat)
    requires c.Valid() && Inv(c, s, k) && m in c.caps && OwnMoneyOnly(c, s.accounts[m], m, k)
    requires NeverDrewCarry(c, s, ops, m) && ops != []
    ensures Inv(c, t, k') && OwnMoneyOnly(c, t.accounts[m], m, k') && NeverDrewCarry(c, t, ops[1..], m)
    ensures Run(c, s, ops) == Run(c, t, ops[1..]) && k + Settlements(c, s, ops) == k' + Settlements(c, t, ops[1..])
  {
    t := Step(c, s, ops[0]).0;
    k' := if Step(c, s, ops[0]).1.Settled? then k + 1 else k;
    StepKeepsInv(c, s, k, ops[0]);
    StepOwnMoneyOnly(c, s, k, ops[0], m);
  }

  /** Whatever all other candidates do, an unfinished candidate that has never drawn carry is
      granted every request whose worst case fits its own remaining money less k * eps, where
      `k` counts the settlements so far: all of its own money when there is no slack. */
  lemma Isolation(c: Config, ops: seq<Op>, m: Name, p: Payload)
    requires c.Valid() && m in c.caps && NeverDrewCarry(c, Initial(c), ops, m)
    requires var s := Run(c, Initial(c), ops);
             var k := Settlements(c, Initial(c), ops);
             && m !in s.finished && 0.0 <= p.maxTokens
             && c.worstCase(m, p) <= s.accounts[m].own - (Slack(c.eps, k) - c.eps)
    ensures DoReserve(c, Run(c, Initial(c), ops), m, p).1 == Granted(c.worstCase(m, p))
  {
    AdmittedAfter(c, ops, m, c.worstCase(m, p));
  }

  lemma StartOwnMoneyOnly(c: Config, m: Name)
    requires c.Valid() && m in c.caps
    ensures Inv(c, Initial(c), 0) && OwnMoneyOnly(c, Initial(c).accounts[m], m, 0)
  {
    InitialInv(c);
  }

  lemma AdmittedAfter(c: Config, ops: seq<Op>, m: Name, worst: real)
    requires c.Valid() && m in c.caps && NeverDrewCarry(c, Initial(c), ops, m)
    requires worst <= Run(c, Initial(c), ops).accounts[m].own - (Slack(c.eps, Settlements(c, Initial(c), ops)) - c.eps)
    ensures Admit(c, Run(c, Initial(c), ops), m, worst).1 == Granted(worst)
  {
    StartOwnMoneyOnly(c, m);
    RunOwnMoneyOnly(c, Initial(c), 0, ops, m, Run(c, Initial(c), ops), Settlements(c, Initial(c), ops));
    OwnMoneyIsAdmitted(c, Run(c, Initial(c), ops), Settlements(c, Initial(c), ops), m, worst);
  }

  lemma OwnMoneyIsAdmitted(c: Config, s: State, k: nat, m: Name, worst: real)
    requires c.Valid() && m in c.caps && Inv(c, s, k) && OwnMoneyOnly(c, s.accounts[m], m, k)
    requires worst <= s.accounts[m].own - (Slack(c.eps, k) - c.eps)
    ensures Admit(c, s, m, worst).1 == Granted(worst)
  {
  }

  /** The same seen from one moment: without slack, the money a candidate owns now stays
      available to it through any later activity of the others. */
  lemma IsolationFromNowOn(c: Config, ops: seq<Op>, others: seq<Op>, m: Name, p: Payload)
    requires c.Valid() && c.eps == 0.0 && m in c.caps
    requires NeverDrewCarry(c, Initial(c), ops, m) && NoneOf(others, m)
    requires var s := Run(c, Initial(c), ops);
             m !in s.finished && 0.0 <= p.maxTokens && c.worstCase(m, p) <= s.accounts[m].own
    ensures DoReserve(c, Run(c, Run(c, Initial(c), ops), others), m, p).1 == Granted(c.worstCase(m, p))
  {
    RunAppend(c, Initial(c), ops, others, m);
    OthersLeaveAccount(c, Run(c, Initial(c), ops), others, m);
    NoSlack(Settlements(c, Initial(c), ops + others));
    Isolation(c, ops + others, m, p);
  }

  lemma {:induction false} NoSlack(k: nat)
    ensures Slack(0.0, k) == 0.0
  {
    if k > 0 { NoSlack(k - 1); }
  }

  lemma {:induction false} RunAppend(c: Config, s: State, a: seq<Op>, b: seq<Op>, m: Name)
    requires Keyed(c, s) && m in c.caps && NeverDrewCarry(c, s, a, m) && NoneOf(b, m)
    ensures Run(c, s, a + b) == Run(c, Run(c, s, a), b)
    ensures NeverDrewCarry(c, s, a + b, m)
    decreases |a|, |b|
  {
    if a != [] {
      assert (a + b)[1..] == a[1..] + b;
      RunAppend(c, Step(c, s, a[0]).0, a[1..], b, m);
    } else {
      assert a + b == b;
      if b != [] {
        assert b[0].model != m;
        assert forall i :: 0 <= i < |b| - 1 ==> b[1..][i] == b[i + 1];
        assert [] + b[1..] == b[1..];
        RunAppend(c, Step(c, s, b[0]).0, [], b[1..], m);
      }
    }
  }
}
