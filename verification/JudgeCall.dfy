/** The judge call over the journal, the authorization ledger and the protected files it updates,
    each method proved to take exactly the durable steps of the machine. */
module JudgeCall {
  import opened Prelude
  import opened Judge

  datatype Status = Go | Halt | Die

  class JudgeRun {
    const x: Ctx
    // authorization ledger
    var ledgerReserved: bool
    var ledgerSettled: Option<Settlement>
    // journal
    var action: Action
    var permit: Option<Permit>
    var reconciled: Option<real>
    var intent: Option<Settlement>
    var settled: Option<Settlement>
    // protected files
    var request: Option<Digest>
    var raw: Option<nat>
    var receipt: Option<Receipt>
    // requests that left the process, and durable steps it has left to live
    var sent: nat
    var left: nat

    function View(): State
      reads this
    {
      State(ledgerReserved, action, request, permit, sent, raw, receipt, reconciled, intent, ledgerSettled, settled)
    }

    function Now(st: Status): Flow
      reads this
    {
      match st
      case Go => Live(View(), left)
      case Halt => Stopped(View())
      case Die => Dead(View())
    }

    constructor (x: Ctx)
      ensures this.x == x && View() == INITIAL
    {
      this.x := x;
      ledgerReserved, ledgerSettled := false, None;
      action, permit, reconciled, intent, settled := Absent, None, None, None, None;
      request, raw, receipt, sent, left := None, None, None, 0, 0;
    }

    /** Whether the process survives to take one more durable step. */
    method Survives() returns (alive: bool)
      modifies this`left
      ensures alive <==> old(left) > 0
      ensures left == if alive then old(left) - 1 else old(left)
    {
      alive := left > 0;
      if alive { left := left - 1; }
    }

    method Commit() returns (st: Status)
      requires intent.Some?
      modifies this`left, this`ledgerSettled, this`settled
      ensures Now(st) == CommitSettlement(old(Now(Go)))
    {
      if ledgerSettled.None? {
        var alive := Survives();
        if !alive { return Die; }
        ledgerSettled := intent;
      } else if ledgerSettled != intent {
        return Halt;
      }
      var alive := Survives();
      if !alive { return Die; }
      settled := intent;
      return Go;
    }

    method SettleActionCost(cost: real, at: Time) returns (st: Status)
      modifies this`left, this`intent, this`ledgerSettled, this`settled
      ensures Now(st) == Settle(x, old(Now(Go)), cost, at)
    {
      if action !in {Succeeded, Failed} || settled.Some? { return Halt; }
      if intent.None? {
        if ledgerSettled.Some? || cost < 0.0 || cost > x.maxCost { return Halt; }
        var alive := Survives();
        if !alive { return Die; }
        intent := Some(Settlement(cost, at));
      } else if intent.value.cost != cost {
        return Halt;
      }
      st := Commit();
    }

    method OpenJournal() returns (st: Status)
      modifies this`left, this`action, this`ledgerSettled, this`settled
      ensures Now(st) == Open(old(Now(Go)))
    {
      st := RecoverActionReservation();
      if st == Go { st := RecoverCostSettlement(); }
    }

    /** A reservation that reached the authorization ledger but not the journal. */
    method RecoverActionReservation() returns (st: Status)
      modifies this`left, this`action
      ensures Now(st) == RecoverReservation(old(Now(Go)))
    {
      if ledgerReserved && action == Absent {
        var alive := Survives();
        if !alive { return Die; }
        action := Reserved;
      }
      return Go;
    }

    /** A settlement that stopped after its intent. */
    method RecoverCostSettlement() returns (st: Status)
      modifies this`left, this`ledgerSettled, this`settled
      ensures Now(st) == RecoverSettlement(old(Now(Go)))
    {
      if intent.None? || settled.Some? { return Go; }
      if action !in {Succeeded, Failed} { return Halt; }
      st := Commit();
    }

    method CompleteResponse(w: World) returns (st: Status)
      modifies this`left, this`action, this`intent, this`ledgerSettled, this`settled
      ensures Now(st) == Complete(x, old(Now(Go)), w)
    {
      if action != Unknown || permit.None? || receipt.None? || raw.None? { return Halt; }
      var r := receipt.value;
      if || r.observation != permit.value.observation || r.request != permit.value.request
         || r.rawSha != x.sha(raw.value) || r.cost > x.maxCost || r.judgedAt < permit.value.consumedAt
      {
        return Halt;
      }
      var alive := Survives();
      if !alive { return Die; }
      action := Succeeded;
      st := SettleActionCost(r.cost, w.settledAt);
    }

    method ReplayCall(w: World) returns (st: Status)
      modifies this`left, this`action, this`intent, this`ledgerSettled, this`settled
      ensures Now(st) == Replay(x, old(Now(Go)), w)
    {
      if !ReceiptOk(x, View(), w.observation) { return Halt; }
      var cost := receipt.value.cost;
      st := Go;
      if action == Unknown {
        st := CompleteResponse(w);
      } else if settled.None? {
        st := SettleActionCost(cost, w.settledAt);
      }
      if st == Go && (settled.None? || settled.value.cost != cost) { st := Halt; }
    }

    method ReserveAction(w: World) returns (st: Status)
      modifies this`left, this`ledgerReserved, this`action
      ensures Now(st) == Reserve(old(Now(Go)), w)
    {
      if action == Reserved { return Go; }
      if !w.authorized { return Halt; }
      var alive := Survives();
      if !alive { return Die; }
      ledgerReserved := true;
      alive := Survives();
      if !alive { return Die; }
      action := Reserved;
      return Go;
    }

    method ConsumeRequestPermit(w: World) returns (st: Status)
      modifies this`left, this`request, this`action, this`permit
      ensures Now(st) == ConsumePermit(x, old(Now(Go)), w)
    {
      var wanted := x.requestFor(w.observation);
      if request.None? {
        var alive := Survives();
        if !alive { return Die; }
        request := Some(wanted);
      } else if request != Some(wanted) {
        return Halt;
      }
      if action != Reserved || permit.Some? || !w.authorized { return Halt; }
      var alive := Survives();
      if !alive { return Die; }
      action, permit := Unknown, Some(Permit(wanted, w.observation, w.consumedAt));
      return Go;
    }

    method SendRequest(w: World) returns (st: Status)
      modifies this`left, this`sent, this`raw
      ensures Now(st) == Send(old(Now(Go)), w)
    {
      var alive := Survives();
      if !alive { return Die; }
      sent := sent + 1;
      if w.reply.None? { return Halt; }
      if raw.Some? { return if raw == w.reply then Go else Halt; }
      alive := Survives();
      if !alive { return Die; }
      raw := w.reply;
      return Go;
    }

    method FileReceipt(w: World) returns (st: Status)
      requires raw.Some? && permit.Some?
      modifies this`left, this`receipt
      ensures Now(st) == WriteReceipt(x, old(Now(Go)), w)
    {
      var reply := x.parse(raw.value, w.observation);
      if reply.None? { return Halt; }
      var r := Receipt(w.observation, permit.value.request, x.sha(raw.value), reply.value.cost, w.judgedAt);
      if receipt.Some? { return if receipt == Some(r) then Go else Halt; }
      var alive := Survives();
      if !alive { return Die; }
      receipt := Some(r);
      return Go;
    }

    method FirstCall(w: World) returns (st: Status)
      modifies this
      ensures Now(st) == Call(x, old(Now(Go)), w)
    {
      if !w.transport { return Halt; }
      st := ReserveAction(w);
      if st != Go { return; }
      st := ConsumeRequestPermit(w);
      if st != Go { return; }
      st := SendRequest(w);
      if st != Go || raw.None? || permit.None? { return; }
      st := FileReceipt(w);
      if st != Go { return; }
      st := CompleteResponse(w);
    }

    /** One invocation: repair, then run or replay. */
    method RunOrReplayJudge(w: World) returns (result: Result)
      modifies this
      ensures (View(), result) == Invoke(x, old(View()), w)
    {
      left := w.steps;
      var st := OpenJournal();
      if st == Go {
        if action in {Unknown, Succeeded} && receipt.Some? {
          st := ReplayCall(w);
        } else if action in {Unknown, Succeeded, Failed} || receipt.Some? {
          st := Halt;
        } else {
          st := FirstCall(w);
        }
      }
      return ResultOf(x, Now(st), w.observation);
    }
  }
}
