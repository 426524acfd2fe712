/** Dispatch goes through the plan in order, one action at a time, each at most once, over every
    sequence of commands and deaths. */
module DispatchLaws {
  import opened Prelude
  import opened Dispatch

  // ----- the plan's order -----

  lemma {:induction false} OrderFacts(plan: seq<Item>)
    requires Distinct(plan)
    ensures NoDup(Order(plan))
    ensures forall id :: id in Order(plan) <==> Item(id, false) in plan
  {
    if plan != [] {
      assert forall k :: 0 <= k < |plan| - 1 ==> plan[1..][k] == plan[k + 1];
      assert plan == [plan[0]] + plan[1..];
      OrderFacts(plan[1..]);
      var head: seq<Name> := if plan[0].classify then [] else [plan[0].id];
      assert forall id :: id in head ==> id !in Order(plan[1..]);
      NoDupAppend(head, Order(plan[1..]));
    }
  }

  lemma JudgedIsNotOrdered(plan: seq<Item>, id: Name)
    requires Distinct(plan) && Item(id, true) in plan
    ensures id !in Order(plan)
  {
    OrderFacts(plan);
    var i :| 0 <= i < |plan| && plan[i] == Item(id, true);
    assert forall j :: 0 <= j < |plan| && plan[j] == Item(id, false) ==> j != i && plan[j].id == plan[i].id;
  }

  /** The loop picks the first action of the order that is not closed. */
  lemma {:induction false} ChooseFirstOpen(plan: seq<Item>, s: State) returns (k: nat)
    ensures k <= |Order(plan)|
    ensures forall j :: 0 <= j < k ==> Closed(s, Order(plan)[j])
    ensures Choose(plan, s) ==
              if k == |Order(plan)| then AllClosed
              else if Order(plan)[k] !in s.actions || s.actions[Order(plan)[k]] == Reserved then
                Next(Order(plan)[k])
              else NotClosed(Order(plan)[k])
    ensures k < |Order(plan)| ==> !Closed(s, Order(plan)[k])
  {
    if plan == [] {
      k := 0;
    } else if plan[0].classify {
      k := ChooseFirstOpen(plan[1..], s);
      assert Order(plan) == Order(plan[1..]);
    } else if Closed(s, plan[0].id) {
      var rest := ChooseFirstOpen(plan[1..], s);
      k := rest + 1;
      assert Order(plan) == [plan[0].id] + Order(plan[1..]);
    } else {
      k := 0;
    }
  }

  // ----- the invariant -----

  /** How far dispatch has come: the permits are the first part of the order. */
  ghost predicate PrefixAt(order: seq<Name>, s: State, k: nat)
    requires k < |order|
  {
    var id := order[k];
    && (k + 1 < |s.permits| ==> Closed(s, id))
    && (k < |s.permits| ==> id in s.actions && s.actions[id] != Reserved)
    && (k >= |s.permits| ==> id !in s.settled && id !in s.intents)
    && (k == |s.permits| && id in s.actions ==> s.actions[id] == Reserved)
    && (k > |s.permits| ==> id !in s.actions && id !in s.ledger)
  }

  ghost predicate Inv(order: seq<Name>, s: State) {
    && |s.permits| <= |order| && s.permits == order[..|s.permits|]
    && (forall k :: 0 <= k < |order| ==> PrefixAt(order, s, k))
    && (forall id :: id in s.settled ==> id in s.intents)
    && (forall id :: id in s.intents && id in order ==> Terminal(s, id))
    && Subsequence(s.calls, s.permits)
  }

  /** `a` results from `b` by leaving some elements out. */
  ghost predicate Subsequence(a: seq<Name>, b: seq<Name>) {
    if b == [] then a == []
    else Subsequence(a, b[..|b| - 1])
         || (a != [] && a[|a| - 1] == b[|b| - 1] && Subsequence(a[..|a| - 1], b[..|b| - 1]))
  }

  lemma SubsequenceGrows(a: seq<Name>, b: seq<Name>, id: Name)
    requires Subsequence(a, b)
    ensures Subsequence(a, b + [id]) && Subsequence(a + [id], b + [id])
  {
    assert (b + [id])[..|b|] == b && (a + [id])[..|a|] == a;
  }

  lemma RepairKeeps(order: seq<Name>, s: State, rs: set<Name>, ss: set<Name>)
    requires Inv(order, s)
    ensures Inv(order, Repair(s, rs, ss)) && Repair(s, rs, ss).permits == s.permits
  {
    var t := Repair(s, rs, ss);
    forall k | 0 <= k < |order| ensures PrefixAt(order, t, k) { assert PrefixAt(order, s, k); }
    forall id | id in t.intents && id in order ensures Terminal(t, id) { assert Terminal(s, id); }
  }

  /** The dispatched action is the next of the order, and everything before it is closed. */
  lemma NextIsFrontier(plan: seq<Item>, s: State, k: nat)
    requires Inv(Order(plan), s) && !AnyUnknown(s) && k < |Order(plan)|
    requires forall j :: 0 <= j < k ==> Closed(s, Order(plan)[j])
    requires Order(plan)[k] !in s.actions || s.actions[Order(plan)[k]] == Reserved
    ensures k == |s.permits|
  {
    var order := Order(plan);
    assert PrefixAt(order, s, k);
    if k > 0 { assert PrefixAt(order, s, k - 1); }
    if |s.permits| < |order| { assert PrefixAt(order, s, |s.permits|); }
  }

  lemma ReservedKeeps(order: seq<Name>, s: State, t: State)
    requires NoDup(order) && Inv(order, s) && |s.permits| < |order|
    requires var id := order[|s.permits|];
             (id !in s.actions || s.actions[id] == Reserved)
             && (t == s.(ledger := s.ledger + {id})
                 || t == s.(ledger := s.ledger + {id}, actions := s.actions[id := Reserved]))
    ensures Inv(order, t)
  {
    forall k | 0 <= k < |order| ensures PrefixAt(order, t, k) { assert PrefixAt(order, s, k); }
    forall x | x in t.intents && x in order ensures Terminal(t, x) { assert Terminal(s, x); }
  }

  lemma PermitKeeps(order: seq<Name>, s: State, called: bool)
    requires NoDup(order) && Inv(order, s) && |s.permits| < |order|
    requires forall j :: 0 <= j < |s.permits| ==> Closed(s, order[j])
    requires order[|s.permits|] in s.actions && s.actions[order[|s.permits|]] == Reserved
    ensures var id := order[|s.permits|];
            Inv(order, s.(actions := s.actions[id := Unknown], permits := s.permits + [id],
                          calls := if called then s.calls + [id] else s.calls))
  {
    var n := |s.permits|;
    var id := order[n];
    var calls := if called then s.calls + [id] else s.calls;
    var t := s.(actions := s.actions[id := Unknown], permits := s.permits + [id], calls := calls);
    assert PrefixAt(order, s, n);
    forall k | 0 <= k < |order| ensures PrefixAt(order, t, k) { assert PrefixAt(order, s, k); }
    forall x | x in t.intents && x in order ensures Terminal(t, x) { assert Terminal(s, x); }
    SubsequenceGrows(s.calls, s.permits, id);
    assert order[..n + 1] == order[..n] + [id];
  }

  lemma DispatchOneKeeps(order: seq<Name>, s: State, w: World)
    requires NoDup(order) && Inv(order, s) && |s.permits| < |order|
    requires forall j :: 0 <= j < |s.permits| ==> Closed(s, order[j])
    requires var id := order[|s.permits|]; id !in s.actions || s.actions[id] == Reserved
    ensures var id := order[|s.permits|];
            var t := DispatchOne(s, id, w);
            && Inv(order, t)
            && (t.permits == s.permits || t.permits == s.permits + [id])
            && (t.calls == s.calls || (t.calls == s.calls + [id] && t.permits == s.permits + [id]))
  {
    var id := order[|s.permits|];
    var s0 := s.(ledger := s.ledger + {id});
    var s1 := if id in s.actions then s else s.(ledger := s.ledger + {id}, actions := s.actions[id := Reserved]);
    if id !in s.actions {
      ReservedKeeps(order, s, s0);
      ReservedKeeps(order, s, s1);
    }
    assert forall j :: 0 <= j < |s.permits| ==> Closed(s1, order[j]);
    PermitKeeps(order, s1, false);
    PermitKeeps(order, s1, true);
  }

  /** What one `execute-resume` may do on a reachable state: nothing while any action is unknown,
      and otherwise at most one dispatch, of the next action of the order, when all before it are
      terminal and settled. */
  lemma ExecuteFacts(plan: seq<Item>, s: State, w: World)
    requires Distinct(plan) && Inv(Order(plan), s)
    ensures var t := DoExecute(plan, s, w);
            var n := |s.permits|;
            && Inv(Order(plan), t)
            && (t.permits != s.permits || t.calls != s.calls ==>
                  && !AnyUnknown(Open(s)) && n < |Order(plan)|
                  && (forall j :: 0 <= j < n ==> Closed(Open(s), Order(plan)[j]))
                  && t.permits == s.permits + [Order(plan)[n]]
                  && (t.calls == s.calls || t.calls == s.calls + [Order(plan)[n]]))
  {
    var order, s1 := Order(plan), Open(s);
    RepairKeeps(order, s, s.ledger, s.intents);
    OrderFacts(plan);
    if !AnyUnknown(s1) {
      var k := ChooseFirstOpen(plan, s1);
      if Choose(plan, s1).Next? {
        NextIsFrontier(plan, s1, k);
        DispatchOneKeeps(order, s1, w);
      }
    }
  }

  /** Moving an action that is already beyond its permit, or not in the order, to a terminal
      state, or settling it. */
  lemma ResolvedKeeps(order: seq<Name>, s: State, id: Name, t: State)
    requires NoDup(order) && Inv(order, s) && t.permits == s.permits && t.calls == s.calls && t.ledger == s.ledger
    requires id in order ==> id in s.actions && s.actions[id] != Reserved
    requires t.actions == s.actions || (id in s.actions && t.actions == s.actions[id := Succeeded])
          || (id in s.actions && t.actions == s.actions[id := Failed])
    requires id in order ==> Terminal(t, id) || (t.intents == s.intents && t.settled == s.settled)
    requires s.intents <= t.intents <= s.intents + {id} && s.settled <= t.settled <= s.settled + {id}
    requires id in t.settled ==> id in t.intents
    ensures Inv(order, t)
  {
    forall k | 0 <= k < |order| ensures PrefixAt(order, t, k) { assert PrefixAt(order, s, k); }
    forall x | x in t.intents && x in order ensures Terminal(t, x) {
      if x != id { assert Terminal(s, x); }
    }
  }

  lemma ReconcileFacts(plan: seq<Item>, s: State, id: Name, succeeded: bool, steps: nat)
    requires Distinct(plan) && Inv(Order(plan), s)
    ensures var t := DoReconcile(s, id, succeeded, steps);
            Inv(Order(plan), t) && t.permits == s.permits && t.calls == s.calls
  {
    RepairKeeps(Order(plan), s, s.ledger, s.intents);
    OrderFacts(plan);
    var s1 := Open(s);
    var t := DoReconcile(s, id, succeeded, steps);
    if t != s1 { ResolvedKeeps(Order(plan), s1, id, t); }
  }

  lemma JudgeFacts(plan: seq<Item>, s: State, id: Name, status: Status, isSettled: bool)
    requires Distinct(plan) && Inv(Order(plan), s)
    ensures var t := DoJudge(plan, s, id, status, isSettled);
            Inv(Order(plan), t) && t.permits == s.permits && t.calls == s.calls
  {
    if Item(id, true) in plan {
      JudgedIsNotOrdered(plan, id);
      var order, t := Order(plan), DoJudge(plan, s, id, status, isSettled);
      forall k | 0 <= k < |order| ensures PrefixAt(order, t, k) {
        assert PrefixAt(order, s, k);
        assert order[k] in order && order[k] != id;
      }
      forall x | x in t.intents && x in order ensures Terminal(t, x) { assert Terminal(s, x); }
    }
  }

  // ----- whole runs -----

  lemma {:induction false} RunKeeps(plan: seq<Item>, s: State, ops: seq<Op>)
    requires Distinct(plan) && Inv(Order(plan), s)
    ensures Inv(Order(plan), Run(plan, s, ops))
    decreases |ops|
  {
    if ops != [] {
      match ops[0] {
        case DieRepairing(rs, ss) => RepairKeeps(Order(plan), s, rs, ss);
        case Execute(w) => ExecuteFacts(plan, s, w);
        case Reconcile(id, succeeded, steps) => ReconcileFacts(plan, s, id, succeeded, steps);
        case JudgeMoves(id, status, isSettled) => JudgeFacts(plan, s, id, status, isSettled);
      }
      RunKeeps(plan, Step(plan, s, ops[0]), ops[1..]);
    }
  }

  lemma InitialInv(order: seq<Name>)
    ensures Inv(order, INITIAL)
  {
  }

  /** The permits consumed are an exact beginning of the plan's order, each once; every one but
      the last is terminal and settled; and the adapter was called for some of them, in order. */
  lemma DispatchFollowsPlan(plan: seq<Item>, ops: seq<Op>)
    requires Distinct(plan)
    ensures var s := Run(plan, INITIAL, ops);
            && |s.permits| <= |Order(plan)| && s.permits == Order(plan)[..|s.permits|] && NoDup(s.permits)
            && (forall k :: 0 <= k < |s.permits| - 1 ==> Closed(s, s.permits[k]))
            && Subsequence(s.calls, s.permits)
  {
    InitialInv(Order(plan));
    RunKeeps(plan, INITIAL, ops);
    OrderFacts(plan);
    PermitsFacts(Order(plan), Run(plan, INITIAL, ops));
  }

  lemma PermitsFacts(order: seq<Name>, s: State)
    requires NoDup(order) && Inv(order, s)
    ensures NoDup(s.permits) && forall k :: 0 <= k < |s.permits| - 1 ==> Closed(s, s.permits[k])
  {
    assert forall k :: 0 <= k < |s.permits| ==> s.permits[k] == order[k];
    forall k | 0 <= k < |s.permits| - 1 ensures Closed(s, s.permits[k]) { assert PrefixAt(order, s, k); }
  }

  /** Every single command: only `execute-resume` dispatches, at most one action, the next of the
      plan, never while any action is unknown, and only when all earlier ones are terminal and
      settled. */
  lemma OneDispatchAtATime(plan: seq<Item>, ops: seq<Op>, op: Op)
    requires Distinct(plan)
    ensures var s := Run(plan, INITIAL, ops);
            var t := Step(plan, s, op);
            var n := |s.permits|;
            t.permits != s.permits || t.calls != s.calls ==>
              && op.Execute? && !AnyUnknown(Open(s)) && n < |Order(plan)|
              && (forall j :: 0 <= j < n ==> Closed(Open(s), Order(plan)[j]))
              && t.permits == s.permits + [Order(plan)[n]]
              && (t.calls == s.calls || t.calls == s.calls + [Order(plan)[n]])
  {
    InitialInv(Order(plan));
    RunKeeps(plan, INITIAL, ops);
    var s := Run(plan, INITIAL, ops);
    match op
    case DieRepairing(rs, ss) => RepairKeeps(Order(plan), s, rs, ss);
    case Execute(w) => ExecuteFacts(plan, s, w);
    case Reconcile(id, succeeded, steps) => ReconcileFacts(plan, s, id, succeeded, steps);
    case JudgeMoves(id, status, isSettled) => JudgeFacts(plan, s, id, status, isSettled);
  }

  /** When the loop finds everything closed, every dispatchable action was dispatched. */
  lemma CompleteMeansAllDispatched(plan: seq<Item>, ops: seq<Op>)
    requires Distinct(plan) && Choose(plan, Open(Run(plan, INITIAL, ops))).AllClosed?
    ensures Run(plan, INITIAL, ops).permits == Order(plan)
  {
    InitialInv(Order(plan));
    RunKeeps(plan, INITIAL, ops);
    AllClosedAllDispatched(plan, Run(plan, INITIAL, ops));
  }

  lemma AllClosedAllDispatched(plan: seq<Item>, s: State)
    requires Inv(Order(plan), s) && Choose(plan, Open(s)).AllClosed?
    ensures s.permits == Order(plan)
  {
    var order := Order(plan);
    RepairKeeps(order, s, s.ledger, s.intents);
    var k := ChooseFirstOpen(plan, Open(s));
    assert |s.permits| < |order| ==> PrefixAt(order, Open(s), |s.permits|) && Closed(Open(s), order[|s.permits|]);
    assert order[..|order|] == order;
  }
}
