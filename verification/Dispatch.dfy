/** Ordered single dispatch: `execute-resume` walks the sealed plan and dispatches the first
    action that is not settled, `reconcile-action` resolves what a dispatch left unknown, and
    every command first repairs the journal. A process may die before any durable step. */
module Dispatch {
  import opened Prelude

  datatype Status = Reserved | Unknown | Succeeded | Failed

  /** A sealed action: semantic classification is left to the judge. */
  datatype Item = Item(id: Name, classify: bool)

  /** The authorization ledger's reservations and settlements, the journal's action states and
      settlement intents, which actions were reconciled, the permits consumed in order, and the
      adapter calls made in order. */
  datatype State = State(
    ledger: set<Name>, actions: map<Name, Status>, reconciled: set<Name>,
    intents: set<Name>, ledgerSettled: set<Name>, settled: set<Name>,
    permits: seq<Name>, calls: seq<Name>)

  const INITIAL: State := State({}, map[], {}, {}, {}, {}, [], [])

  /** The world during one execution: whether the authorization grants a reservation, whether the
      preflight passes, and how many durable steps the process lives. */
  datatype World = World(granted: bool, ready: bool, steps: nat)

  datatype Op =
    | DieRepairing(reservations: set<Name>, settlements: set<Name>)
    | Execute(world: World)
    | Reconcile(id: Name, succeeded: bool, steps: nat)
    | JudgeMoves(id: Name, status: Status, isSettled: bool)

  predicate Terminal(s: State, id: Name) {
    id in s.actions && (s.actions[id] == Succeeded || s.actions[id] == Failed)
  }

  /** Terminal and cost-settled. */
  predicate Closed(s: State, id: Name) { Terminal(s, id) && id in s.settled }

  // ----- repair -----

  /** Restores the journal's tail for the named lost reservations and interrupted settlements. */
  function Repair(s: State, reservations: set<Name>, settlements: set<Name>): State {
    var lost := set id | id in s.ledger && id in reservations && id !in s.actions;
    var open := s.intents * settlements;
    s.(actions := s.actions + (map id | id in lost :: Reserved),
       ledgerSettled := s.ledgerSettled + open, settled := s.settled + open)
  }

  function Open(s: State): State { Repair(s, s.ledger, s.intents) }

  // ----- execute-resume -----

  datatype Choice = AllClosed | NotClosed(at: Name) | Next(id: Name)

  /** The loop over the plan: the first action that is not closed decides. */
  function Choose(plan: seq<Item>, s: State): Choice {
    if plan == [] then AllClosed
    else if plan[0].classify then Choose(plan[1..], s)
    else
      var id := plan[0].id;
      if id !in s.actions || s.actions[id] == Reserved then Next(id)
      else if Closed(s, id) then Choose(plan[1..], s)
      else NotClosed(id)
  }

  /** Reserves where needed, consumes the permit and calls the adapter, dying after `steps`
      durable steps. */
  function DispatchOne(s: State, id: Name, w: World): State {
    if id !in s.actions && !w.granted then s
    else
      var needed := if id in s.actions then 0 else 2;
      if w.steps == 0 then s
      else if needed == 2 && w.steps == 1 then s.(ledger := s.ledger + {id})
      else
        var s1 := if needed == 0 then s else s.(ledger := s.ledger + {id}, actions := s.actions[id := Reserved]);
        var left := w.steps - needed;
        if left == 0 || !w.ready then s1
        else
          var s2 := s1.(actions := s1.actions[id := Unknown], permits := s1.permits + [id]);
          if left == 1 then s2 else s2.(calls := s2.calls + [id])
  }

  predicate AnyUnknown(s: State) { exists id :: id in s.actions && s.actions[id] == Unknown }

  function DoExecute(plan: seq<Item>, s: State, w: World): State {
    var s1 := Open(s);
    if AnyUnknown(s1) then s1
    else
      match Choose(plan, s1)
      case Next(id) => DispatchOne(s1, id, w)
      case NotClosed(_) => s1
      case AllClosed => s1
  }

  // ----- reconcile-action -----

  /** The three writes of a settlement. */
  function Settle(s: State, id: Name, steps: nat): State {
    if id in s.settled || steps == 0 then s
    else if steps == 1 then s.(intents := s.intents + {id})
    else if steps == 2 then s.(intents := s.intents + {id}, ledgerSettled := s.ledgerSettled + {id})
    else s.(intents := s.intents + {id}, ledgerSettled := s.ledgerSettled + {id}, settled := s.settled + {id})
  }

  function DoReconcile(s: State, id: Name, succeeded: bool, steps: nat): State {
    var s1 := Open(s);
    var resolved := if succeeded then Succeeded else Failed;
    if id in s1.actions && s1.actions[id] == Unknown then
      if steps == 0 then s1
      else Settle(s1.(actions := s1.actions[id := resolved], reconciled := s1.reconciled + {id}), id, steps - 1)
    else if id in s1.reconciled && id in s1.actions && s1.actions[id] == resolved then Settle(s1, id, steps)
    else s1
  }

  /** The judge moves its own actions, and only those. */
  function DoJudge(plan: seq<Item>, s: State, id: Name, status: Status, isSettled: bool): State {
    if Item(id, true) !in plan then s
    else
      var s1 := s.(actions := s.actions[id := status]);
      if isSettled && (status == Succeeded || status == Failed) then
        s1.(intents := s1.intents + {id}, ledgerSettled := s1.ledgerSettled + {id}, settled := s1.settled + {id})
      else s1.(intents := s1.intents - {id}, ledgerSettled := s1.ledgerSettled - {id}, settled := s1.settled - {id})
  }

  function Step(plan: seq<Item>, s: State, op: Op): State {
    match op
    case DieRepairing(rs, ss) => Repair(s, rs, ss)
    case Execute(w) => DoExecute(plan, s, w)
    case Reconcile(id, succeeded, steps) => DoReconcile(s, id, succeeded, steps)
    case JudgeMoves(id, status, isSettled) => DoJudge(plan, s, id, status, isSettled)
  }

  function Run(plan: seq<Item>, s: State, ops: seq<Op>): State
    decreases |ops|
  {
    if ops == [] then s else Run(plan, Step(plan, s, ops[0]), ops[1..])
  }

  /** The plan's dispatchable actions in order. */
  function Order(plan: seq<Item>): seq<Name> {
    if plan == [] then [] else (if plan[0].classify then [] else [plan[0].id]) + Order(plan[1..])
  }

  /** Action identities in a sealed plan are distinct. */
  ghost predicate Distinct(plan: seq<Item>) {
    forall i, j :: 0 <= i < j < |plan| ==> plan[i].id != plan[j].id
  }
}
