/** The request cost ledger as a pure state machine.

    Every candidate model owns an allowance; one carry pool is fed by finished candidates. A
    request is reserved at its worst case, own money first and carry second, and later settled
    at its actual cost with the refund split back the same way. The comparison slack of the
    program, one trillionth of a dollar, is the parameter `eps`. */
module Ledger {
  import opened Prelude

  const ALLOWANCE_FACTOR: real := 1.25

  /** What the ledger looks at in a request: its encoded size and its completion limit. */
  datatype Payload = Payload(bytes: nat, maxTokens: real)

  /** A battle's candidates with their estimates, caps and request prices. */
  datatype Config = Config(
    models: seq<Name>,
    estimates: map<Name, real>,
    caps: map<Name, real>,
    worstCase: (Name, Payload) -> real,
    eps: real)
  {
    /** The dictionaries cover the same candidates and nothing is negative. */
    ghost predicate Valid() {
      && 0.0 <= eps
      && estimates.Keys == caps.Keys
      && (forall m :: m in caps ==> 0.0 <= estimates[m] && 0.0 <= caps[m])
      && (forall m, p: Payload :: m in caps && 0.0 <= p.maxTokens ==> 0.0 <= worstCase(m, p))
    }

    /** `models` lists every candidate once. */
    ghost predicate Listed() {
      NoDup(models) && forall m :: m in models <==> m in caps
    }

    function Allowance(m: Name): real
      requires m in caps && m in estimates
    {
      Min(caps[m], estimates[m] * ALLOWANCE_FACTOR)
    }
  }

  /** The most a request can cost: every byte a prompt token, and all completion tokens used. */
  function CatalogWorstCase(promptPrice: map<Name, real>, completionPrice: map<Name, real>): (Name, Payload) -> real {
    (m: Name, p: Payload) =>
      if m in promptPrice && m in completionPrice then
        (if p.bytes < 1 then 1 else p.bytes) as real * promptPrice[m] + p.maxTokens * completionPrice[m]
      else 0.0
  }

  lemma CatalogWorstCaseNonNegative(promptPrice: map<Name, real>, completionPrice: map<Name, real>, m: Name, p: Payload)
    requires m in promptPrice ==> 0.0 <= promptPrice[m]
    requires m in completionPrice ==> 0.0 <= completionPrice[m]
    requires 0.0 <= p.maxTokens
    ensures 0.0 <= CatalogWorstCase(promptPrice, completionPrice)(m, p)
  {
  }

  datatype Reservation = Reservation(worst: real, ownUsed: real, carryUsed: real)

  datatype Limit = CostCap | BattleAllowance

  datatype Error =
    | NotConfigured
    | AlreadyFinished
    | NotFinite
    | UnknownReservation
    | CostExceedsReservation
    | CapExceededAfterResponse
    | PendingReservations

  datatype Outcome =
    | Granted(worst: real)
    | Exhausted(committed: real, limit: real, kind: Limit)
    | Settled
    | Finished
    | Refused(error: Error)

  /** One candidate's books. */
  datatype Account = Account(own: real, pending: real, actual: real, reservations: seq<Reservation>) {
    function Worth(): real { own + pending + actual }
  }

  datatype State = State(accounts: map<Name, Account>, carry: real, finished: set<Name>)

  datatype Op =
    | Reserve(model: Name, payload: Payload)
    | Reconcile(model: Name, reservation: real, cost: real)
    | Finish(model: Name)

  /** The ledger has an account for exactly the configured candidates. */
  ghost predicate Keyed(c: Config, s: State) {
    s.accounts.Keys == c.caps.Keys
  }

  function Initial(c: Config): (s: State)
    requires c.Valid()
    ensures Keyed(c, s)
  {
    State(map m | m in c.caps :: Account(c.Allowance(m), 0.0, 0.0, []), 0.0, {})
  }

  // ----- the three operations -----

  /** Reserves `worst` for a model that may still send, if both limits allow it. */
  function Admit(c: Config, s: State, m: Name, worst: real): (r: (State, Outcome))
    requires Keyed(c, s) && m in c.caps
    ensures Keyed(c, r.0) && (r.1.Granted? || r.1.Exhausted?)
  {
    var a := s.accounts[m];
    var committed := a.actual + a.pending;
    var available := a.own + s.carry;
    if committed + worst > c.caps[m] + c.eps then
      (s, Exhausted(committed, c.caps[m], CostCap))
    else if worst > available + c.eps then
      (s, Exhausted(committed, available, BattleAllowance))
    else
      var ownUsed := Min(worst, a.own);
      var a' := a.(own := a.own - ownUsed, pending := a.pending + worst,
                   reservations := a.reservations + [Reservation(worst, ownUsed, worst - ownUsed)]);
      (s.(accounts := s.accounts[m := a'], carry := s.carry - (worst - ownUsed)), Granted(worst))
  }

  function DoReserve(c: Config, s: State, m: Name, p: Payload): (r: (State, Outcome))
    requires Keyed(c, s)
    ensures Keyed(c, r.0) && (r.1.Granted? || r.1.Exhausted? || r.1.Refused?)
  {
    if m !in c.caps then (s, Refused(NotConfigured))
    else if m in s.finished then (s, Refused(AlreadyFinished))
    else if p.maxTokens < 0.0 then (s, Refused(NotFinite))
    else Admit(c, s, m, c.worstCase(m, p))
  }

  predicate Matches(r: Reservation, x: real, eps: real) {
    -eps <= r.worst - x <= eps
  }

  /** The first reservation within `eps` of `x`, or the length of the list. */
  function Find(rs: seq<Reservation>, x: real, eps: real): (i: nat)
    ensures i <= |rs|
    ensures i < |rs| ==> Matches(rs[i], x, eps)
    ensures forall j :: 0 <= j < i ==> !Matches(rs[j], x, eps)
  {
    if rs == [] then 0
    else if Matches(rs[0], x, eps) then 0
    else 1 + Find(rs[1..], x, eps)
  }

  function Without<T>(s: seq<T>, i: nat): seq<T>
    requires i < |s|
  {
    s[..i] + s[i + 1..]
  }

  /** One account and the pool after settling a reservation that is already off the list,
      unless its cost is out of bounds. */
  function Settle(a: Account, carry: real, cap: real, eps: real, res: Reservation, cost: real)
    : (r: (Account, real, Outcome))
    ensures r.2.Settled? || r.2.Refused?
  {
    if cost > res.worst + eps then (a, carry, Refused(CostExceedsReservation))
    else if a.actual + cost > cap + eps then (a, carry, Refused(CapExceededAfterResponse))
    else
      var ownActual := Min(cost, res.ownUsed);
      (a.(own := a.own + (res.ownUsed - ownActual), pending := a.pending - res.worst, actual := a.actual + cost),
       carry + (res.carryUsed - (cost - ownActual)),
       Settled)
  }

  function Popped(a: Account, i: nat): Account
    requires i < |a.reservations|
  {
    a.(reservations := Without(a.reservations, i))
  }

  /** The reservation is taken off the list before the two checks that may still refuse it. */
  function DoReconcile(c: Config, s: State, m: Name, x: real, cost: real): (r: (State, Outcome))
    requires Keyed(c, s)
    ensures Keyed(c, r.0) && (r.1.Settled? || r.1.Refused?)
  {
    if cost < 0.0 || x < 0.0 then (s, Refused(NotFinite))
    else if m !in c.caps then (s, Refused(UnknownReservation))
    else
      var a := s.accounts[m];
      var i := Find(a.reservations, x, c.eps);
      if i == |a.reservations| then (s, Refused(UnknownReservation))
      else
        var r := Settle(Popped(a, i), s.carry, c.caps[m], c.eps, a.reservations[i], cost);
        (s.(accounts := s.accounts[m := r.0], carry := r.1), r.2)
  }

  function DoFinish(c: Config, s: State, m: Name): (r: (State, Outcome))
    requires Keyed(c, s)
    ensures Keyed(c, r.0) && (r.1.Finished? || r.1.Refused?)
  {
    if m !in c.caps then (s, Refused(NotConfigured))
    else if m in s.finished then (s, Refused(AlreadyFinished))
    else if s.accounts[m].pending > c.eps then (s, Refused(PendingReservations))
    else
      var a := s.accounts[m];
      (State(s.accounts[m := a.(own := 0.0)], s.carry + a.own, s.finished + {m}), Finished)
  }

  function Step(c: Config, s: State, op: Op): (r: (State, Outcome))
    requires Keyed(c, s)
    ensures Keyed(c, r.0)
  {
    match op
    case Reserve(m, p) => DoReserve(c, s, m, p)
    case Reconcile(m, x, cost) => DoReconcile(c, s, m, x, cost)
    case Finish(m) => DoFinish(c, s, m)
  }

  function Run(c: Config, s: State, ops: seq<Op>): (r: State)
    requires Keyed(c, s)
    ensures Keyed(c, r)
    decreases |ops|
  {
    if ops == [] then s else Run(c, Step(c, s, ops[0]).0, ops[1..])
  }

  /** How many of the operations settle a request. */
  function Settlements(c: Config, s: State, ops: seq<Op>): nat
    requires Keyed(c, s)
    decreases |ops|
  {
    if ops == [] then 0
    else
      var (s', out) := Step(c, s, ops[0]);
      (if out.Settled? then 1 else 0) + Settlements(c, s', ops[1..])
  }

  // ----- sums -----

  /** What the listed candidates hold, owe and have spent together. */
  function TotalWorth(ms: seq<Name>, f: map<Name, Account>): real
    requires forall m :: m in ms ==> m in f
  {
    if ms == [] then 0.0
    else
      var m := ms[0];
      assert m in ms;
      f[m].Worth() + TotalWorth(ms[1..], f)
  }

  function TotalActual(ms: seq<Name>, f: map<Name, Account>): real
    requires forall m :: m in ms ==> m in f
  {
    if ms == [] then 0.0
    else
      var m := ms[0];
      assert m in ms;
      f[m].actual + TotalActual(ms[1..], f)
  }

  lemma {:induction false} TotalWorthUpdate(ms: seq<Name>, f: map<Name, Account>, m: Name, a: Account)
    requires NoDup(ms) && m in f && forall x :: x in ms ==> x in f
    ensures m in ms ==> TotalWorth(ms, f[m := a]) == TotalWorth(ms, f) - f[m].Worth() + a.Worth()
    ensures m !in ms ==> TotalWorth(ms, f[m := a]) == TotalWorth(ms, f)
  {
    if ms != [] {
      var rest := ms[1..];
      assert forall k :: 0 <= k < |rest| ==> rest[k] == ms[k + 1];
      assert ms[0] !in rest;
      TotalWorthUpdate(rest, f, m, a);
    }
  }

  /** Spending is part of the total worth, and all of it where nothing is held or owed. */
  lemma {:induction false} ActualWithinWorth(ms: seq<Name>, f: map<Name, Account>)
    requires forall m :: m in ms ==> m in f && 0.0 <= f[m].own && 0.0 <= f[m].pending
    ensures TotalActual(ms, f) <= TotalWorth(ms, f)
    ensures (forall m :: m in ms ==> f[m].own == 0.0 && f[m].pending == 0.0) ==>
              TotalActual(ms, f) == TotalWorth(ms, f)
  {
    if ms != [] {
      var m := ms[0];
      assert m in ms;
      ActualWithinWorth(ms[1..], f);
    }
  }

  function Outstanding(rs: seq<Reservation>): real {
    if rs == [] then 0.0 else rs[0].worst + Outstanding(rs[1..])
  }

  lemma {:induction false} OutstandingAppend(a: seq<Reservation>, b: seq<Reservation>)
    ensures Outstanding(a + b) == Outstanding(a) + Outstanding(b)
  {
    if a == [] {
      assert a + b == b;
    } else {
      assert (a + b)[1..] == a[1..] + b;
      OutstandingAppend(a[1..], b);
    }
  }

  lemma {:induction false} OutstandingWithout(rs: seq<Reservation>, i: nat)
    requires i < |rs|
    ensures Outstanding(Without(rs, i)) == Outstanding(rs) - rs[i].worst
  {
    var rest := Without(rs, i);
    if i == 0 {
      assert rest == rs[1..];
    } else {
      OutstandingWithout(rs[1..], i - 1);
      assert rest[1..] == Without(rs[1..], i - 1);
    }
  }

  ghost predicate WellFormed(rs: seq<Reservation>) {
    forall i :: 0 <= i < |rs| ==>
      0.0 <= rs[i].ownUsed && 0.0 <= rs[i].carryUsed && rs[i].worst == rs[i].ownUsed + rs[i].carryUsed
  }

  lemma {:induction false} OutstandingNonNegative(rs: seq<Reservation>)
    requires WellFormed(rs)
    ensures 0.0 <= Outstanding(rs)
  {
    if rs != [] {
      assert WellFormed(rs[1..]);
      OutstandingNonNegative(rs[1..]);
    }
  }

  // ----- the invariant -----

  /** The rounding slack that `k` settlements can consume: (1 + k) * eps. */
  function Slack(eps: real, k: nat): real {
    if k == 0 then eps else Slack(eps, k - 1) + eps
  }

  ghost predicate AccountOk(a: Account, cap: real, eps: real) {
    && WellFormed(a.reservations)
    && 0.0 <= a.own
    && 0.0 <= a.actual <= cap + eps
    && Outstanding(a.reservations) <= a.pending
    && (eps == 0.0 ==> a.actual + a.pending <= cap)
  }

  /** What holds after any number of operations, `k` of them settlements. */
  ghost predicate Inv(c: Config, s: State, k: nat) {
    && Keyed(c, s)
    && (forall m :: m in c.caps ==> AccountOk(s.accounts[m], c.caps[m], c.eps))
    && -Slack(c.eps, k) <= s.carry
  }

  lemma InitialInv(c: Config)
    requires c.Valid()
    ensures Inv(c, Initial(c), 0)
  {
  }

  lemma {:induction false} SlackNonNegative(eps: real, k: nat)
    requires 0.0 <= eps
    ensures eps <= Slack(eps, k)
  {
    if k > 0 { SlackNonNegative(eps, k - 1); }
  }

  lemma AdmitKeepsInv(c: Config, s: State, k: nat, m: Name, worst: real)
    requires 0.0 <= c.eps && Inv(c, s, k) && m in c.caps && 0.0 <= worst
    ensures Inv(c, Admit(c, s, m, worst).0, k)
  {
    var a := s.accounts[m];
    OutstandingAppend(a.reservations, [Reservation(worst, Min(worst, a.own), worst - Min(worst, a.own))]);
    SlackNonNegative(c.eps, k);
  }

  lemma ReconcileKeepsInv(c: Config, s: State, k: nat, m: Name, x: real, cost: real)
    requires Inv(c, s, k) && 0.0 <= c.eps
    ensures var (s', out) := DoReconcile(c, s, m, x, cost);
            Inv(c, s', if out.Settled? then k + 1 else k)
  {
    if m in c.caps {
      var rs := s.accounts[m].reservations;
      var i := Find(rs, x, c.eps);
      if i < |rs| {
        OutstandingWithout(rs, i);
        assert WellFormed(Without(rs, i));
        OutstandingNonNegative(Without(rs, i));
      }
    }
  }

  lemma StepKeepsInv(c: Config, s: State, k: nat, op: Op)
    requires c.Valid() && Inv(c, s, k)
    ensures var (s', out) := Step(c, s, op);
            Inv(c, s', if out.Settled? then k + 1 else k)
  {
    match op
    case Reserve(m, p) =>
      if m in c.caps && 0.0 <= p.maxTokens { AdmitKeepsInv(c, s, k, m, c.worstCase(m, p)); }
    case Reconcile(m, x, cost) => ReconcileKeepsInv(c, s, k, m, x, cost);
    case Finish(m) =>
  }

  lemma {:induction false} RunKeepsInv(c: Config, s: State, k: nat, ops: seq<Op>)
    requires c.Valid() && Inv(c, s, k)
    ensures Inv(c, Run(c, s, ops), k + Settlements(c, s, ops))
    decreases |ops|
  {
    if ops != [] {
      var (s', out) := Step(c, s, ops[0]);
      StepKeepsInv(c, s, k, ops[0]);
      RunKeepsInv(c, s', if out.Settled? then k + 1 else k, ops[1..]);
    }
  }

  // ----- conservation -----

  function TotalAllowance(c: Config): real
    requires c.Valid() && c.Listed()
  {
    TotalWorth(c.models, Initial(c).accounts)
  }

  /** Money on hand, promised and spent. */
  function Money(c: Config, s: State): real
    requires Keyed(c, s) && c.Listed()
  {
    TotalWorth(c.models, s.accounts) + s.carry
  }

  /** An operation touches one account and the pool, and what it takes from one it gives to
      the other. */
  lemma StepBalances(c: Config, s: State, op: Op)
    requires Keyed(c, s) && op.model in c.caps && WellFormed(s.accounts[op.model].reservations)
    ensures var t, m := Step(c, s, op).0, op.model;
            && t.accounts == s.accounts[m := t.accounts[m]]
            && t.accounts[m].Worth() + t.carry == s.accounts[m].Worth() + s.carry
  {
  }

  /** Every operation, refused or not, moves money and never makes or loses any. */
  lemma StepConserves(c: Config, s: State, k: nat, op: Op)
    requires c.Listed() && Inv(c, s, k)
    ensures Money(c, Step(c, s, op).0) == Money(c, s)
  {
    var m := op.model;
    if m in c.caps {
      StepBalances(c, s, op);
      TotalWorthUpdate(c.models, s.accounts, m, Step(c, s, op).0.accounts[m]);
    }
  }

  lemma {:induction false} RunConserves(c: Config, s: State, k: nat, ops: seq<Op>)
    requires c.Valid() && c.Listed() && Inv(c, s, k)
    ensures Money(c, Run(c, s, ops)) == Money(c, s)
    decreases |ops|
  {
    if ops != [] {
      var (s', out) := Step(c, s, ops[0]);
      StepConserves(c, s, k, ops[0]);
      StepKeepsInv(c, s, k, ops[0]);
      RunConserves(c, s', if out.Settled? then k + 1 else k, ops[1..]);
    }
  }
}
