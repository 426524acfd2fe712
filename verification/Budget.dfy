/** The request cost budget object: mutable per-model dictionaries, a list of reservations per
    model and a finished set, each method proved to move its fields exactly as the ledger does. */
module Budget {
  import opened Prelude
  import opened Ledger

  function Books(ms: set<Name>, own: map<Name, real>, pending: map<Name, real>, actual: map<Name, real>,
                 reservations: map<Name, seq<Reservation>>): map<Name, Account>
    requires own.Keys == ms && pending.Keys == ms && actual.Keys == ms && reservations.Keys == ms
  {
    map m | m in ms :: Account(own[m], pending[m], actual[m], reservations[m])
  }

  lemma BooksUpdate(ms: set<Name>, own: map<Name, real>, pending: map<Name, real>, actual: map<Name, real>,
                    reservations: map<Name, seq<Reservation>>, m: Name, a: Account)
    requires own.Keys == ms && pending.Keys == ms && actual.Keys == ms && reservations.Keys == ms && m in ms
    ensures own[m := a.own].Keys == ms && pending[m := a.pending].Keys == ms
    ensures actual[m := a.actual].Keys == ms && reservations[m := a.reservations].Keys == ms
    ensures Books(ms, own[m := a.own], pending[m := a.pending], actual[m := a.actual],
                  reservations[m := a.reservations])
         == Books(ms, own, pending, actual, reservations)[m := a]
  {
  }

  class RequestCostBudget {
    const c: Config
    var own: map<Name, real>
    var carry: real
    var pending: map<Name, real>
    var actual: map<Name, real>
    var reservations: map<Name, seq<Reservation>>
    var finished: set<Name>

    /** The dictionaries read as one ledger. */
    function View(): State
      requires Aligned()
      reads this
    {
      State(Books(c.caps.Keys, own, pending, actual, reservations), carry, finished)
    }

    predicate Aligned()
      reads this
    {
      own.Keys == c.caps.Keys && pending.Keys == c.caps.Keys && actual.Keys == c.caps.Keys
      && reservations.Keys == c.caps.Keys
    }

    ghost predicate Valid()
      reads this
    {
      c.Valid() && Aligned()
    }

    constructor (c: Config)
      requires c.Valid()
      ensures this.c == c && Valid() && View() == Initial(c)
    {
      this.c := c;
      own := map m | m in c.caps :: c.Allowance(m);
      carry := 0.0;
      pending := map m | m in c.caps :: 0.0;
      actual := map m | m in c.caps :: 0.0;
      reservations := map m | m in c.caps :: [];
      finished := {};
    }

    /** Builds a budget from estimates, caps and catalog prices; none when a cap or a price is
        missing or a number is negative. Caps of other models are ignored. */
    static method Create(models: seq<Name>, estimates: map<Name, real>, caps: map<Name, real>,
                         promptPrice: map<Name, real>, completionPrice: map<Name, real>, eps: real)
      returns (b: Option<RequestCostBudget>)
      requires 0.0 <= eps && forall m :: m in models <==> m in estimates
      ensures b.Some? <==> forall m :: m in models ==>
                && m in caps && m in promptPrice && m in completionPrice
                && 0.0 <= estimates[m] && 0.0 <= caps[m] && 0.0 <= promptPrice[m] && 0.0 <= completionPrice[m]
      ensures b.Some? ==>
                && fresh(b.value) && b.value.Valid() && b.value.View() == Initial(b.value.c)
                && b.value.c.models == models && b.value.c.estimates == estimates && b.value.c.eps == eps
                && (forall m :: m in models ==> b.value.c.caps[m] == caps[m])
                && b.value.c.worstCase == CatalogWorstCase(promptPrice, completionPrice)
    {
      for i := 0 to |models|
        invariant forall j :: 0 <= j < i ==>
          var m := models[j];
          && m in caps && m in promptPrice && m in completionPrice
          && 0.0 <= estimates[m] && 0.0 <= caps[m] && 0.0 <= promptPrice[m] && 0.0 <= completionPrice[m]
      {
        var m := models[i];
        assert m in models;
        if m !in caps || m !in promptPrice || m !in completionPrice { return None; }
        if estimates[m] < 0.0 || caps[m] < 0.0 || promptPrice[m] < 0.0 || completionPrice[m] < 0.0 { return None; }
      }
      forall m | m in models
        ensures m in caps && m in promptPrice && m in completionPrice && 0.0 <= estimates[m] && 0.0 <= caps[m]
      {
        var j :| 0 <= j < |models| && models[j] == m;
      }
      var own := map m | m in estimates :: caps[m];
      var c := Config(models, estimates, own, CatalogWorstCase(promptPrice, completionPrice), eps);
      assert c.Valid() by {
        forall m, p: Payload | m in own && 0.0 <= p.maxTokens ensures 0.0 <= c.worstCase(m, p) {
          var j :| 0 <= j < |models| && models[j] == m;
          CatalogWorstCaseNonNegative(promptPrice, completionPrice, m, p);
        }
      }
      var budget := new RequestCostBudget(c);
      b := Some(budget);
    }

    function AccountOf(m: Name): (a: Account)
      requires Aligned() && m in c.caps
      reads this
      ensures a == View().accounts[m]
    {
      Account(own[m], pending[m], actual[m], reservations[m])
    }

    /** Writes one candidate's entries of the four dictionaries, and the pool. */
    method Enter(m: Name, a: Account, pool: real)
      requires Aligned() && m in c.caps
      modifies this`own, this`pending, this`actual, this`reservations, this`carry
      ensures Aligned() && View() == old(View()).(accounts := old(View()).accounts[m := a], carry := pool)
    {
      carry := pool;
      BooksUpdate(c.caps.Keys, own, pending, actual, reservations, m, a);
      own := own[m := a.own];
      pending := pending[m := a.pending];
      actual := actual[m := a.actual];
      reservations := reservations[m := a.reservations];
    }

    method ReserveRequest(m: Name, p: Payload) returns (out: Outcome)
      requires Aligned()
      modifies this
      ensures Aligned()
      ensures (View(), out) == DoReserve(c, old(View()), m, p)
    {
      if m !in c.caps { return Refused(NotConfigured); }
      if m in finished { return Refused(AlreadyFinished); }
      if p.maxTokens < 0.0 { return Refused(NotFinite); }
      var worst := c.worstCase(m, p);
      var a := AccountOf(m);
      var committed := a.actual + a.pending;
      if committed + worst > c.caps[m] + c.eps {
        return Exhausted(committed, c.caps[m], CostCap);
      }
      var available := a.own + carry;
      if worst > available + c.eps {
        return Exhausted(committed, available, BattleAllowance);
      }
      var ownUsed := Min(worst, a.own);
      var carryUsed := worst - ownUsed;
      Enter(m, a.(own := a.own - ownUsed, pending := a.pending + worst,
                  reservations := a.reservations + [Reservation(worst, ownUsed, carryUsed)]),
            carry - carryUsed);
      return Granted(worst);
    }

    static method MatchIndex(rs: seq<Reservation>, x: real, eps: real) returns (i: nat)
      ensures i == Find(rs, x, eps)
    {
      i := 0;
      while i < |rs| && !Matches(rs[i], x, eps)
        invariant 0 <= i <= |rs|
        invariant forall j :: 0 <= j < i ==> !Matches(rs[j], x, eps)
      {
        i := i + 1;
      }
    }

    method ReconcileRequest(m: Name, reservation: real, cost: real) returns (out: Outcome)
      requires Aligned()
      modifies this
      ensures Aligned()
      ensures (View(), out) == DoReconcile(c, old(View()), m, reservation, cost)
    {
      if cost < 0.0 || reservation < 0.0 { return Refused(NotFinite); }
      if m !in c.caps { return Refused(UnknownReservation); }
      var a := AccountOf(m);
      var i := MatchIndex(a.reservations, reservation, c.eps);
      if i == |a.reservations| { return Refused(UnknownReservation); }
      Enter(m, Popped(a, i), carry);
      out := SettlePopped(m, a.reservations[i], cost);
      assert View().accounts == old(View()).accounts[m := View().accounts[m]];
    }

    /** The second half of a reconciliation, after the reservation left the list. */
    method SettlePopped(m: Name, res: Reservation, cost: real) returns (out: Outcome)
      requires Aligned() && m in c.caps
      modifies this`own, this`pending, this`actual, this`reservations, this`carry
      ensures Aligned()
      ensures var r := Settle(old(View()).accounts[m], old(carry), c.caps[m], c.eps, res, cost);
              View() == old(View()).(accounts := old(View()).accounts[m := r.0], carry := r.1) && out == r.2
    {
      var a := AccountOf(m);
      assert View().accounts == View().accounts[m := a];
      if cost > res.worst + c.eps { return Refused(CostExceedsReservation); }
      var nextActual := a.actual + cost;
      if nextActual > c.caps[m] + c.eps { return Refused(CapExceededAfterResponse); }
      var ownActual := Min(cost, res.ownUsed);
      var carryActual := cost - ownActual;
      Enter(m, a.(own := a.own + (res.ownUsed - ownActual), pending := a.pending - res.worst, actual := nextActual),
            carry + (res.carryUsed - carryActual));
      return Settled;
    }

    method FinishCandidate(m: Name) returns (out: Outcome)
      requires Aligned()
      modifies this
      ensures Aligned()
      ensures (View(), out) == DoFinish(c, old(View()), m)
    {
      if m !in c.caps { return Refused(NotConfigured); }
      if m in finished { return Refused(AlreadyFinished); }
      var a := AccountOf(m);
      if a.pending > c.eps { return Refused(PendingReservations); }
      Enter(m, a.(own := 0.0), carry + a.own);
      finished := finished + {m};
      return Finished;
    }
  }
}
