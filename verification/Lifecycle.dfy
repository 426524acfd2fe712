/** The lifecycle commands over the journal and ledger they update in place: the loop over the
    sealed plan with its early returns, and the reconciliation, proved to move the state as the
    dispatch machine does. */
module Lifecycle {
  import opened Prelude
  import opened Dispatch

  class Runner {
    const plan: seq<Item>
    // authorization ledger
    var ledger: set<Name>
    var ledgerSettled: set<Name>
    // journal
    var actions: map<Name, Status>
    var reconciled: set<Name>
    var intents: set<Name>
    var settled: set<Name>
    var permits: seq<Name>
    // adapter calls that left the process
    var calls: seq<Name>

    function View(): State
      reads this
    {
      State(ledger, actions, reconciled, intents, ledgerSettled, settled, permits, calls)
    }

    constructor (plan: seq<Item>)
      ensures this.plan == plan && View() == INITIAL
    {
      this.plan := plan;
      ledger, ledgerSettled, actions, reconciled := {}, {}, map[], {};
      intents, settled, permits, calls := {}, {}, [], [];
    }

    method OpenJournal()
      modifies this`actions, this`ledgerSettled, this`settled
      ensures View() == Open(old(View()))
    {
      var repaired := Open(View());
      actions, ledgerSettled, settled := repaired.actions, repaired.ledgerSettled, repaired.settled;
    }

    /** Reserves in the ledger, then in the journal, dying after `steps` of the two. */
    method ReserveAction(id: Name, w: World) returns (alive: bool)
      requires id !in actions
      modifies this`ledger, this`actions
      ensures alive <==> w.granted && w.steps >= 2
      ensures View() == if !w.granted || w.steps == 0 then old(View())
                        else if w.steps == 1 then old(View()).(ledger := old(ledger) + {id})
                        else old(View()).(ledger := old(ledger) + {id}, actions := old(actions)[id := Reserved])
    {
      if !w.granted || w.steps == 0 { return false; }
      ledger := ledger + {id};
      if w.steps == 1 { return false; }
      actions := actions[id := Reserved];
      return true;
    }

    /** Preflight, permit, adapter call. */
    method DispatchLocal(id: Name, ready: bool, steps: nat)
      requires id in actions
      modifies this`actions, this`permits, this`calls
      ensures View() == if steps == 0 || !ready then old(View())
                        else old(View()).(actions := old(actions)[id := Unknown], permits := old(permits) + [id],
                                          calls := if steps == 1 then old(calls) else old(calls) + [id])
    {
      if steps == 0 || !ready { return; }
      actions := actions[id := Unknown];
      permits := permits + [id];
      if steps == 1 { return; }
      calls := calls + [id];
    }

    /** `execute-resume`: at most one dispatch. */
    method ExecuteResume(w: World)
      modifies this
      ensures View() == DoExecute(plan, old(View()), w)
    {
      OpenJournal();
      ghost var s := View();
      if exists id :: id in actions && actions[id] == Unknown { return; }
      var i := 0;
      while i < |plan|
        invariant 0 <= i <= |plan| && View() == s
        invariant Choose(plan[i..], s) == Choose(plan, s)
      {
        assert plan[i..][0] == plan[i] && plan[i..][1..] == plan[i + 1..];
        var item := plan[i];
        i := i + 1;
        if item.classify { continue; }
        if item.id in actions && actions[item.id] != Reserved {
          if (actions[item.id] != Succeeded && actions[item.id] != Failed) || item.id !in settled { return; }
          continue;
        }
        if item.id in actions {
          DispatchLocal(item.id, w.ready, w.steps);
        } else {
          var alive := ReserveAction(item.id, w);
          if alive { DispatchLocal(item.id, w.ready, w.steps - 2); }
        }
        return;
      }
    }

    /** `reconcile-action`: resolve what is unknown, then settle it in three writes. */
    method ReconcileAction(id: Name, succeeded: bool, steps: nat)
      modifies this
      ensures View() == DoReconcile(old(View()), id, succeeded, steps)
    {
      OpenJournal();
      var resolved := if succeeded then Succeeded else Failed;
      if id in actions && actions[id] == Unknown {
        if steps == 0 { return; }
        actions := actions[id := resolved];
        reconciled := reconciled + {id};
        SettleAction(id, steps - 1);
      } else if id in reconciled && id in actions && actions[id] == resolved {
        SettleAction(id, steps);
      }
    }

    method SettleAction(id: Name, steps: nat)
      modifies this`intents, this`ledgerSettled, this`settled
      ensures View() == Settle(old(View()), id, steps)
    {
      if id in settled || steps == 0 { return; }
      intents := intents + {id};
      if steps == 1 { return; }
      ledgerSettled := ledgerSettled + {id};
      if steps == 2 { return; }
      settled := settled + {id};
    }
  }
}
