/** The slack bound is attained: for every number of settlements there is a run that overdraws the
    pool, and overspends the battle, by exactly (1 + k) * eps. */
module SlackBound {
  import opened Prelude
  import opened Ledger
  import opened LedgerLaws

  /** One candidate with an allowance of one, a cap out of the way, and requests priced by their
      completion limit. */
  function LooseConfig(eps: real, k: nat): Config {
    Config([0], map[0 := 0.8], map[0 := 3.0 + Slack(eps, k)], CatalogWorstCase(map[0 := 0.0], map[0 := 1.0]), eps)
  }

  const FREE: Op := Reserve(0, Payload(0, 0.0))

  /** A free request answered with the slack. */
  function Charge(eps: real): Op { Reconcile(0, 0.0, eps) }

  function Repeat(op: Op, n: nat): seq<Op> { if n == 0 then [] else [op] + Repeat(op, n - 1) }

  /** One large reservation followed by `n` free ones. */
  function Held(eps: real, n: nat): seq<Reservation> {
    [Reservation(1.0 + eps, 1.0, eps)] + Frees(n)
  }

  function Frees(n: nat): seq<Reservation> { if n == 0 then [] else Frees(n - 1) + [Reservation(0.0, 0.0, 0.0)] }

  lemma {:induction false} FreesFacts(n: nat)
    ensures |Frees(n)| == n && forall i :: 0 <= i < n ==> Frees(n)[i] == Reservation(0.0, 0.0, 0.0)
  {
    if n > 0 { FreesFacts(n - 1); }
  }

  /** The books after the large reservation, `held` free ones and `j` charges. */
  function Books(eps: real, held: nat, j: nat): State {
    State(map[0 := Account(0.0, 1.0 + eps, Slack(eps, j) - eps, Held(eps, held))], -Slack(eps, j), {})
  }

  lemma FreeStep(eps: real, k: nat, held: nat)
    requires 0.0 <= eps
    ensures Step(LooseConfig(eps, k), Books(eps, held, 0), FREE) == (Books(eps, held + 1, 0), Granted(0.0))
  {
    var c, s := LooseConfig(eps, k), Books(eps, held, 0);
    SlackNonNegative(eps, k);
    assert c.worstCase(0, Payload(0, 0.0)) == 0.0;
    assert s.accounts[0] == Account(0.0, 1.0 + eps, 0.0, Held(eps, held)) && s.carry == -eps;
    assert Held(eps, held) + [Reservation(0.0, 0.0, 0.0)] == Held(eps, held + 1);
    var t := Admit(c, s, 0, 0.0);
    assert t.1 == Granted(0.0);
    assert t.0.accounts[0] == Account(0.0, 1.0 + eps, 0.0, Held(eps, held + 1));
    assert t.0.accounts == Books(eps, held + 1, 0).accounts;
  }

  lemma {:induction false} SlackRises(eps: real, j: nat, k: nat)
    requires 0.0 <= eps && j <= k
    ensures Slack(eps, j) <= Slack(eps, k)
  {
    if j < k { SlackRises(eps, j, k - 1); }
  }

  lemma ChargeStep(eps: real, k: nat, held: nat, j: nat)
    requires 0.0 <= eps && j < k && held > 0
    ensures Step(LooseConfig(eps, k), Books(eps, held, j), Charge(eps)) == (Books(eps, held - 1, j + 1), Settled)
  {
    var c, s := LooseConfig(eps, k), Books(eps, held, j);
    var rs := Held(eps, held);
    FreesFacts(held);
    FreesFacts(held - 1);
    assert rs[1] == Reservation(0.0, 0.0, 0.0) && rs[1..][0] == rs[1];
    assert !Matches(rs[0], 0.0, eps) && Matches(rs[1], 0.0, eps);
    assert Find(rs, 0.0, eps) == 1;
    assert Without(rs, 1) == Held(eps, held - 1);
    SlackRises(eps, j + 1, k);
    var (t, out) := Step(c, s, Charge(eps));
    assert out == Settled && t.carry == -Slack(eps, j + 1);
    assert t.accounts[0] == Account(0.0, 1.0 + eps, Slack(eps, j + 1) - eps, Held(eps, held - 1));
    assert t.accounts == Books(eps, held - 1, j + 1).accounts;
  }

  /** The operations lead from `s` to `t` with `k` settlements. */
  ghost predicate Leads(c: Config, s: State, ops: seq<Op>, t: State, k: nat) {
    Keyed(c, s) && Run(c, s, ops) == t && Settlements(c, s, ops) == k
  }

  lemma LeadsOne(c: Config, s: State, op: Op)
    requires Keyed(c, s)
    ensures Leads(c, s, [op], Step(c, s, op).0, if Step(c, s, op).1.Settled? then 1 else 0)
  {
    assert [op][1..] == [];
  }

  lemma {:induction false} LeadsOn(c: Config, s: State, a: seq<Op>, t: State, i: nat, b: seq<Op>, u: State, j: nat)
    requires Leads(c, s, a, t, i) && Leads(c, t, b, u, j)
    ensures Leads(c, s, a + b, u, i + j)
    decreases |a|
  {
    if a == [] {
      assert a + b == b;
    } else {
      assert (a + b)[1..] == a[1..] + b;
      var (s', out) := Step(c, s, a[0]);
      LeadsOn(c, s', a[1..], t, if out.Settled? then i - 1 else i, b, u, j);
    }
  }

  /** Step `i` of a walk through numbered states. */
  ghost predicate Walks(c: Config, op: Op, at: nat -> State, i: nat, settles: bool) {
    Leads(c, at(i), [op], at(i + 1), if settles then 1 else 0)
  }

  lemma {:induction false} RepeatLeads(c: Config, op: Op, at: nat -> State, from: nat, n: nat, settles: bool)
    requires from <= n && Keyed(c, at(n)) && forall i: nat :: from <= i < n ==> Walks(c, op, at, i, settles)
    ensures Leads(c, at(from), Repeat(op, n - from), at(n), if settles then n - from else 0)
    decreases n - from
  {
    if from < n {
      assert Walks(c, op, at, from, settles);
      RepeatLeads(c, op, at, from + 1, n, settles);
      LeadsOn(c, at(from), [op], at(from + 1), if settles then 1 else 0,
              Repeat(op, n - from - 1), at(n), if settles then n - from - 1 else 0);
    }
  }

  lemma FreeLeads(eps: real, k: nat, held: nat)
    requires 0.0 <= eps
    ensures Leads(LooseConfig(eps, k), Books(eps, held, 0), [FREE], Books(eps, held + 1, 0), 0)
  {
    FreeStep(eps, k, held);
    LeadsOne(LooseConfig(eps, k), Books(eps, held, 0), FREE);
  }

  lemma ChargeLeads(eps: real, k: nat, held: nat, j: nat)
    requires 0.0 <= eps && j < k && held > 0
    ensures Leads(LooseConfig(eps, k), Books(eps, held, j), [Charge(eps)], Books(eps, held - 1, j + 1), 1)
  {
    ChargeStep(eps, k, held, j);
    LeadsOne(LooseConfig(eps, k), Books(eps, held, j), Charge(eps));
  }

  /** The books after `i` free reservations, and after `i` charges of `n`. */
  function Freed(eps: real): nat -> State { (i: nat) => Books(eps, i, 0) }

  function Charged(eps: real, n: nat): nat -> State { (i: nat) => Books(eps, if i <= n then n - i else 0, i) }

  lemma FreeWalks(eps: real, k: nat, i: nat)
    requires 0.0 <= eps
    ensures Walks(LooseConfig(eps, k), FREE, Freed(eps), i, false)
  {
    FreeLeads(eps, k, i);
  }

  lemma ChargeWalks(eps: real, k: nat, n: nat, i: nat)
    requires 0.0 <= eps && i < n <= k
    ensures Walks(LooseConfig(eps, k), Charge(eps), Charged(eps, n), i, true)
  {
    var c, held, at := LooseConfig(eps, k), n - i, Charged(eps, n);
    ChargeLeads(eps, k, held, i);
    WalksFrom(c, Charge(eps), at, i, Books(eps, held, i), Books(eps, held - 1, i + 1), true);
  }

  lemma WalksFrom(c: Config, op: Op, at: nat -> State, i: nat, s: State, t: State, settles: bool)
    requires at(i) == s && at(i + 1) == t && Leads(c, s, [op], t, if settles then 1 else 0)
    ensures Walks(c, op, at, i, settles)
  {
  }

  lemma FreeSteps(eps: real, k: nat, n: nat)
    requires 0.0 <= eps
    ensures Leads(LooseConfig(eps, k), Books(eps, 0, 0), Repeat(FREE, n), Books(eps, n, 0), 0)
  {
    forall i: nat | 0 <= i < n ensures Walks(LooseConfig(eps, k), FREE, Freed(eps), i, false) { FreeWalks(eps, k, i); }
    RepeatLeads(LooseConfig(eps, k), FREE, Freed(eps), 0, n, false);
  }

  lemma AllChargesWalk(eps: real, k: nat, n: nat)
    requires 0.0 <= eps && n <= k
    ensures forall i: nat :: 0 <= i < n ==> Walks(LooseConfig(eps, k), Charge(eps), Charged(eps, n), i, true)
  {
    forall i: nat | 0 <= i < n ensures Walks(LooseConfig(eps, k), Charge(eps), Charged(eps, n), i, true) {
      ChargeWalks(eps, k, n, i);
    }
  }

  /** A walk between two given states. */
  lemma WalkLeads(c: Config, op: Op, at: nat -> State, s: State, n: nat, t: State, settles: bool)
    requires Keyed(c, t) && at(0) == s && at(n) == t && forall i: nat :: 0 <= i < n ==> Walks(c, op, at, i, settles)
    ensures Leads(c, s, Repeat(op, n), t, if settles then n else 0)
  {
    RepeatLeads(c, op, at, 0, n, settles);
  }

  lemma ChargeSteps(eps: real, k: nat, n: nat)
    requires 0.0 <= eps && n <= k
    ensures Leads(LooseConfig(eps, k), Books(eps, n, 0), Repeat(Charge(eps), n), Books(eps, 0, n), n)
  {
    AllChargesWalk(eps, k, n);
    WalkLeads(LooseConfig(eps, k), Charge(eps), Charged(eps, n), Books(eps, n, 0), n, Books(eps, 0, n), true);
  }

  function Large(eps: real): Op { Reserve(0, Payload(0, 1.0 + eps)) }

  lemma LargeStep(eps: real, k: nat)
    requires 0.0 <= eps
    ensures var c := LooseConfig(eps, k);
            c.Valid() && c.Listed() && TotalAllowance(c) == 1.0
            && Step(c, Initial(c), Large(eps)) == (Books(eps, 0, 0), Granted(1.0 + eps))
  {
    var c := LooseConfig(eps, k);
    SlackNonNegative(eps, k);
    assert c.Allowance(0) == 1.0;
    assert Initial(c) == State(map[0 := Account(1.0, 0.0, 0.0, [])], 0.0, {});
    assert c.worstCase(0, Payload(0, 1.0 + eps)) == 1.0 + eps;
    assert [] + [Reservation(1.0 + eps, 1.0, eps)] == Held(eps, 0);
    var t := Admit(c, Initial(c), 0, 1.0 + eps);
    assert t.1 == Granted(1.0 + eps);
    assert t.0.accounts[0] == Account(0.0, 1.0 + eps, 0.0, Held(eps, 0));
    assert t.0.accounts == Books(eps, 0, 0).accounts;
    OneModel(c, Initial(c).accounts);
  }

  lemma OneModel(c: Config, f: map<Name, Account>)
    requires c.models == [0] && 0 in f
    ensures TotalWorth(c.models, f) == f[0].Worth() && TotalActual(c.models, f) == f[0].actual
  {
    assert c.models[1..] == [];
  }

  /** The last settlement: the large reservation, answered with the slack on top. */
  lemma LastStep(eps: real, k: nat, j: nat)
    requires 0.0 <= eps && j < k
    ensures var c := LooseConfig(eps, k);
            var (t, out) := Step(c, Books(eps, 0, j), Reconcile(0, 1.0 + eps, 1.0 + eps + eps));
            out.Settled? && t == Overspent(eps, j + 1)
  {
    var rs := Held(eps, 0);
    assert rs == [Reservation(1.0 + eps, 1.0, eps)];
    assert Matches(rs[0], 1.0 + eps, eps);
    assert Find(rs, 1.0 + eps, eps) == 0;
    assert Without(rs, 0) == [];
    SlackRises(eps, j + 1, k);
    var t := Step(LooseConfig(eps, k), Books(eps, 0, j), Reconcile(0, 1.0 + eps, 1.0 + eps + eps)).0;
    assert t.accounts[0] == Account(0.0, 0.0, 1.0 + Slack(eps, j + 1), []);
    assert t.accounts == Overspent(eps, j + 1).accounts;
  }

  /** The state every such run ends in. */
  function Overspent(eps: real, k: nat): State {
    State(map[0 := Account(0.0, 0.0, 1.0 + Slack(eps, k), [])], -Slack(eps, k), {})
  }

  /** The large reservation and the free ones. */
  function Holding(eps: real, k: nat): seq<Op>
    requires k > 0
  {
    [Large(eps)] + Repeat(FREE, k - 1)
  }

  /** The charges of the free reservations and the settlement of the large one. */
  function Settling(eps: real, k: nat): seq<Op>
    requires k > 0
  {
    Repeat(Charge(eps), k - 1) + [Reconcile(0, 1.0 + eps, 1.0 + eps + eps)]
  }

  function Overspending(eps: real, k: nat): seq<Op>
    requires k > 0
  {
    Holding(eps, k) + Settling(eps, k)
  }

  lemma LargeLeads(eps: real, k: nat)
    requires 0.0 <= eps
    ensures var c := LooseConfig(eps, k); c.Valid() && Leads(c, Initial(c), [Large(eps)], Books(eps, 0, 0), 0)
  {
    LargeStep(eps, k);
    LeadsOne(LooseConfig(eps, k), Initial(LooseConfig(eps, k)), Large(eps));
  }

  lemma LastLeads(eps: real, k: nat, j: nat)
    requires 0.0 <= eps && j < k
    ensures Leads(LooseConfig(eps, k), Books(eps, 0, j), [Reconcile(0, 1.0 + eps, 1.0 + eps + eps)],
                  Overspent(eps, j + 1), 1)
  {
    LastStep(eps, k, j);
    LeadsOne(LooseConfig(eps, k), Books(eps, 0, j), Reconcile(0, 1.0 + eps, 1.0 + eps + eps));
  }

  lemma OverspendingLeads(eps: real, k: nat)
    requires 0.0 <= eps && k > 0
    ensures LooseConfig(eps, k).Valid()
    ensures Leads(LooseConfig(eps, k), Initial(LooseConfig(eps, k)), Overspending(eps, k), Overspent(eps, k), k)
  {
    HeldLeads(eps, k);
    SettledLeads(eps, k);
    LeadsOn(LooseConfig(eps, k), Initial(LooseConfig(eps, k)), Holding(eps, k), Books(eps, k - 1, 0), 0,
            Settling(eps, k), Overspent(eps, k), k);
  }

  lemma HeldLeads(eps: real, k: nat)
    requires 0.0 <= eps && k > 0
    ensures var c := LooseConfig(eps, k);
            c.Valid() && Leads(c, Initial(c), Holding(eps, k), Books(eps, k - 1, 0), 0)
  {
    LargeLeads(eps, k);
    FreeSteps(eps, k, k - 1);
    LeadsOn(LooseConfig(eps, k), Initial(LooseConfig(eps, k)), [Large(eps)], Books(eps, 0, 0), 0,
            Repeat(FREE, k - 1), Books(eps, k - 1, 0), 0);
  }

  lemma SettledLeads(eps: real, k: nat)
    requires 0.0 <= eps && k > 0
    ensures Leads(LooseConfig(eps, k), Books(eps, k - 1, 0), Settling(eps, k), Overspent(eps, k), k)
  {
    ChargeSteps(eps, k, k - 1);
    LastLeads(eps, k, k - 1);
    Finally(LooseConfig(eps, k), Books(eps, k - 1, 0), Repeat(Charge(eps), k - 1), Books(eps, 0, k - 1), k - 1,
            Reconcile(0, 1.0 + eps, 1.0 + eps + eps), Overspent(eps, k));
  }

  lemma Finally(c: Config, s: State, a: seq<Op>, t: State, i: nat, last: Op, u: State)
    requires Leads(c, s, a, t, i) && Leads(c, t, [last], u, 1)
    ensures Leads(c, s, a + [last], u, i + 1)
  {
    LeadsOn(c, s, a, t, i, [last], u, 1);
  }

  /** For every slack and every positive number k of settlements some run of one candidate ends
      with the pool at exactly minus (1 + k) * eps and the battle overspent by exactly that. */
  lemma SlackIsAttained(eps: real, k: nat) returns (c: Config, ops: seq<Op>)
    requires 0.0 <= eps && k > 0
    ensures c.Valid() && c.Listed() && c.eps == eps && Settlements(c, Initial(c), ops) == k
    ensures var s := Run(c, Initial(c), ops);
            s.carry == -Slack(eps, k) && TotalActual(c.models, s.accounts) == TotalAllowance(c) + Slack(eps, k)
  {
    c, ops := LooseConfig(eps, k), Overspending(eps, k);
    LargeStep(eps, k);
    OverspendingLeads(eps, k);
    OneModel(c, Overspent(eps, k).accounts);
  }
}
