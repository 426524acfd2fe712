/** The judge is paid at most once and always quoted the same, over any number of invocations,
    reconciliations and deaths. */
module JudgeLaws {
  import opened Prelude
  import opened Judge

  /** The receipt was written for the raw reply on file, under the permit that was consumed. */
  ghost predicate ReceiptBound(x: Ctx, s: State) {
    s.receipt.Some? ==>
      && s.raw.Some? && s.permit.Some?
      && s.receipt.value.request == s.permit.value.request
      && s.receipt.value.observation == s.permit.value.observation
      && s.receipt.value.rawSha == x.sha(s.raw.value)
      && x.parse(s.raw.value, s.receipt.value.observation).Some?
      && x.parse(s.raw.value, s.receipt.value.observation).value.cost == s.receipt.value.cost
  }

  ghost predicate Inv(x: Ctx, s: State) {
    && (s.permit.Some? <==> s.action in {Unknown, Succeeded, Failed})
    && (s.action == Reserved ==> s.ledgerReserved)
    && s.sent <= 1 && (s.sent == 1 ==> s.permit.Some?)
    && (s.raw.Some? ==> s.sent == 1)
    && ReceiptBound(x, s)
    && (s.intent.Some? ==> s.action in {Succeeded, Failed})
    && (s.ledgerSettled.Some? ==> s.ledgerSettled == s.intent)
    && (s.settled.Some? ==> s.settled == s.ledgerSettled)
    && (s.reconciled.Some? ==> s.action in {Succeeded, Failed})
    && (s.action in {Succeeded, Failed} && s.reconciled.None? ==> s.action == Succeeded && s.receipt.Some?)
    && (s.intent.Some? && s.reconciled.None? ==> s.receipt.Some? && s.intent.value.cost == s.receipt.value.cost)
  }

  /** What is on file stays on file, and what was sent stays sent. */
  ghost predicate Extends(s: State, t: State) {
    && s.sent <= t.sent
    && (s.permit.Some? ==> t.permit == s.permit && t.sent == s.sent)
    && (s.raw.Some? ==> t.raw == s.raw)
    && (s.receipt.Some? ==> t.receipt == s.receipt)
    && (s.settled.Some? ==> t.settled == s.settled)
  }

  lemma SettleKeeps(x: Ctx, f: Flow, cost: real, at: Time)
    requires f.Live? && Inv(x, f.s)
    requires f.s.reconciled.None? && f.s.receipt.Some? ==> cost == f.s.receipt.value.cost
    ensures var g := Settle(x, f, cost, at);
            && Inv(x, g.s) && Extends(f.s, g.s)
            && g.s.receipt == f.s.receipt && g.s.raw == f.s.raw && g.s.permit == f.s.permit && g.s.sent == f.s.sent
            && (g.Live? ==> g.s.settled.Some? && g.s.settled.value.cost == cost)
  {
  }

  lemma OpenKeeps(x: Ctx, f: Flow)
    requires f.Live? && Inv(x, f.s)
    ensures var g := Open(f);
            && Inv(x, g.s) && Extends(f.s, g.s) && g.s.receipt == f.s.receipt && g.s.permit == f.s.permit
            && g.s.sent == f.s.sent
  {
  }

  /** A live end of a call: the receipt on file answers for this observation. */
  ghost predicate Answered(x: Ctx, s: State, observation: Digest) {
    s.receipt.Some? && s.receipt.value.observation == observation
  }

  lemma CompleteKeeps(x: Ctx, f: Flow, w: World)
    requires f.Live? && Inv(x, f.s) && f.s.reconciled.None?
    ensures var g := Complete(x, f, w); Inv(x, g.s) && Extends(f.s, g.s) && g.s.receipt == f.s.receipt
  {
    var s := f.s;
    if s.action == Unknown && s.receipt.Some? && s.raw.Some? && s.permit.Some? {
      var f1 := Durable(f, s.(action := Succeeded));
      assert Inv(x, f1.s);
      if f1.Live? { SettleKeeps(x, f1, s.receipt.value.cost, w.settledAt); }
    }
  }

  lemma ReplayKeeps(x: Ctx, f: Flow, w: World)
    requires f.Live? && Inv(x, f.s)
    ensures var g := Replay(x, f, w);
            Inv(x, g.s) && Extends(f.s, g.s) && (g.Live? ==> Answered(x, g.s, w.observation))
  {
    if ReceiptOk(x, f.s, w.observation) {
      if f.s.action == Unknown { CompleteKeeps(x, f, w); }
      else if f.s.settled.None? { SettleKeeps(x, f, f.s.receipt.value.cost, w.settledAt); }
    }
  }

  lemma CallKeeps(x: Ctx, f: Flow, w: World)
    requires f.Live? && Inv(x, f.s) && f.s.action in {Absent, Reserved} && f.s.receipt.None?
    ensures var g := Call(x, f, w);
            Inv(x, g.s) && Extends(f.s, g.s) && (g.Live? ==> Answered(x, g.s, w.observation))
  {
    if w.transport {
      var f1 := Reserve(f, w);
      assert Inv(x, f1.s) && Extends(f.s, f1.s);
      if f1.Live? {
        var f2 := ConsumePermit(x, f1, w);
        assert Inv(x, f2.s) && Extends(f.s, f2.s);
        if f2.Live? {
          SendKeeps(x, f2, w);
          var f3 := Send(f2, w);
          if f3.Live? {
            assert f3.s.raw.Some? && f3.s.permit.Some?;
            WriteReceiptKeeps(x, f3, w);
            var f4 := WriteReceipt(x, f3, w);
            if f4.Live? { CompleteKeeps(x, f4, w); }
          }
        }
      }
    }
  }

  lemma SendKeeps(x: Ctx, f: Flow, w: World)
    requires f.Live? && Inv(x, f.s) && f.s.action == Unknown && f.s.sent == 0
    ensures var g := Send(f, w);
            && Inv(x, g.s) && (g.Live? ==> g.s.raw.Some?)
            && g.s.receipt == f.s.receipt && g.s.permit == f.s.permit && g.s.settled == f.s.settled
            && g.s.reconciled == f.s.reconciled && g.s.action == f.s.action
  {
  }

  lemma WriteReceiptKeeps(x: Ctx, f: Flow, w: World)
    requires f.Live? && Inv(x, f.s) && f.s.action == Unknown && f.s.raw.Some? && f.s.permit.Some? && f.s.receipt.None?
    requires f.s.permit.value.observation == w.observation
    ensures var g := WriteReceipt(x, f, w);
            && Inv(x, g.s) && Extends(f.s, g.s) && g.s.reconciled == f.s.reconciled
            && (g.Live? ==> Answered(x, g.s, w.observation))
  {
  }

  // ----- whole invocations -----

  lemma InvokeKeeps(x: Ctx, s: State, w: World)
    requires Inv(x, s)
    ensures var (t, result) := Invoke(x, s, w);
            && Inv(x, t) && Extends(s, t)
            && (result.Judged? ==>
                  && Answered(x, t, w.observation) && t.raw.Some?
                  && result == Judged(x.parse(t.raw.value, w.observation).value.decision, x.sha(t.raw.value),
                                      t.receipt.value.judgedAt))
  {
    var f0 := Live(s, w.steps);
    OpenKeeps(x, f0);
    var f := Open(f0);
    if f.Live? {
      if f.s.action in {Unknown, Succeeded} && f.s.receipt.Some? { ReplayKeeps(x, f, w); }
      else if f.s.action in {Absent, Reserved} && f.s.receipt.None? { CallKeeps(x, f, w); }
      ExtendsTransitive(s, f.s, RunOrReplay(x, f, w).s);
    }
  }

  lemma ExtendsTransitive(s: State, t: State, u: State)
    requires Extends(s, t) && Extends(t, u)
    ensures Extends(s, u)
  {
  }

  lemma ReconcileKeeps(x: Ctx, s: State, d: Finding)
    requires Inv(x, s)
    ensures Inv(x, Reconcile(x, s, d)) && Extends(s, Reconcile(x, s, d))
  {
    var f0 := Live(s, d.steps);
    OpenKeeps(x, f0);
    var f := Open(f0);
    if f.Live? {
      if f.s.action == Unknown {
        var f1 := Durable(f, f.s.(action := if d.succeeded then Succeeded else Failed, reconciled := Some(d.cost)));
        assert Inv(x, f1.s) && Extends(f.s, f1.s);
        if f1.Live? { SettleKeeps(x, f1, d.cost, d.at); }
      } else if f.s.reconciled.Some? {
        SettleKeeps(x, f, d.cost, d.at);
      }
    }
  }

  lemma {:induction false} RunKeeps(x: Ctx, s: State, ops: seq<Op>)
    requires Inv(x, s)
    ensures Inv(x, Run(x, s, ops)) && Extends(s, Run(x, s, ops))
    decreases |ops|
  {
    if ops != [] {
      var t := Step(x, s, ops[0]);
      match ops[0] {
        case Judge(w) => InvokeKeeps(x, s, w);
        case Resolve(d) => ReconcileKeeps(x, s, d);
      }
      RunKeeps(x, t, ops[1..]);
      ExtendsTransitive(s, t, Run(x, s, ops));
    }
  }

  /** The paid request is sent at most once, whatever dies when and however often the judge is
      invoked or its action reconciled; and never again once the permit is consumed. */
  lemma SentAtMostOnce(x: Ctx, ops: seq<Op>, more: seq<Op>)
    ensures var s := Run(x, INITIAL, ops);
            && s.sent <= 1
            && (s.permit.Some? ==> Run(x, s, more).sent == s.sent)
  {
    RunKeeps(x, INITIAL, ops);
    RunKeeps(x, Run(x, INITIAL, ops), more);
  }

  /** Every successful replay returns the decision, raw digest and time of judgment of the first
      success. */
  lemma EverySuccessAgrees(x: Ctx, ops: seq<Op>, first: World, more: seq<Op>, second: World)
    requires Invoke(x, Run(x, INITIAL, ops), first).1.Judged?
    requires var t := Invoke(x, Run(x, INITIAL, ops), first).0; Invoke(x, Run(x, t, more), second).1.Judged?
    ensures var (t, result) := Invoke(x, Run(x, INITIAL, ops), first);
            Invoke(x, Run(x, t, more), second).1 == result && second.observation == first.observation
  {
    var s := Run(x, INITIAL, ops);
    RunKeeps(x, INITIAL, ops);
    InvokeKeeps(x, s, first);
    var t := Invoke(x, s, first).0;
    RunKeeps(x, t, more);
    InvokeKeeps(x, Run(x, t, more), second);
  }

  // ----- after the permit is consumed -----

  /** The receipt on file can still end in success. */
  ghost predicate Replayable(s: State, observation: Digest) {
    && s.receipt.Some? && s.permit.Some? && s.receipt.value.observation == observation && s.action != Failed
    && (s.action == Unknown ==> s.permit.value.consumedAt <= s.receipt.value.judgedAt)
    && (s.intent.Some? ==> s.intent.value.cost == s.receipt.value.cost)
  }

  /** Enough durable steps to repair and settle everything. */
  const ENOUGH: nat := 6

  lemma OpenAfterPermit(x: Ctx, s: State, steps: nat)
    requires Inv(x, s) && s.permit.Some? && ENOUGH <= steps
    ensures var g := Open(Live(s, steps));
            && g.Live? && g.left >= steps - 2
            && g.s == s.(ledgerSettled := g.s.ledgerSettled, settled := if s.intent.Some? then s.intent else s.settled)
            && Inv(x, g.s)
  {
    OpenKeeps(x, Live(s, steps));
  }

  lemma CompleteAfterPermit(x: Ctx, f: Flow, w: World)
    requires x.Valid() && f.Live? && Inv(x, f.s) && 4 <= f.left
    requires f.s.action == Unknown && ReceiptOk(x, f.s, w.observation)
    ensures if f.s.permit.value.consumedAt <= f.s.receipt.value.judgedAt then
              var g := Complete(x, f, w);
              g.Live? && g.s.settled.Some? && g.s.settled.value.cost == f.s.receipt.value.cost
              && g.s.raw == f.s.raw && g.s.receipt == f.s.receipt
            else Complete(x, f, w) == Stopped(f.s)
  {
    assert x.parse(f.s.raw.value, w.observation).Some?;
  }

  /** Once the permit is consumed nothing is ever sent, and an invocation that lives long enough
      succeeds exactly when the receipt is on file for its observation, was not judged before the
      permit by a clock set back, and does not contradict an independent reconciliation. */
  lemma SuccessAfterPermit(x: Ctx, s: State, w: World)
    requires x.Valid() && Inv(x, s) && s.permit.Some? && ENOUGH <= w.steps
    ensures var (t, result) := Invoke(x, s, w);
            t.sent == s.sent && (result.Judged? <==> Replayable(s, w.observation))
  {
    InvokeKeeps(x, s, w);
    OpenAfterPermit(x, s, w.steps);
    var f := Open(Live(s, w.steps));
    assert Replayable(f.s, w.observation) <==> Replayable(s, w.observation);
    ReplayAfterPermit(x, f, w);
  }

  lemma ReplayAfterPermit(x: Ctx, f: Flow, w: World)
    requires x.Valid() && f.Live? && Inv(x, f.s) && f.s.permit.Some? && 4 <= f.left
    requires f.s.intent.Some? ==> f.s.settled == f.s.intent
    ensures ResultOf(x, RunOrReplay(x, f, w), w.observation).Judged? <==> Replayable(f.s, w.observation)
  {
    var s := f.s;
    if s.receipt.Some? && s.action != Failed {
      assert ReceiptOk(x, s, w.observation) <==> s.receipt.value.observation == w.observation;
      if ReceiptOk(x, s, w.observation) {
        assert x.parse(s.raw.value, w.observation).Some?;
        if s.action == Unknown { CompleteAfterPermit(x, f, w); }
      }
    }
  }

  // ----- without reconciliations -----

  ghost predicate JudgeOnly(ops: seq<Op>) { forall i :: 0 <= i < |ops| ==> ops[i].Judge? }

  /** Every invocation judges this observation, on a clock that does not run back inside it. */
  ghost predicate Forward(ops: seq<Op>, observation: Digest) {
    forall i :: 0 <= i < |ops| ==>
      ops[i].Judge? && ops[i].world.observation == observation && ops[i].world.consumedAt <= ops[i].world.judgedAt
  }

  /** The receipt, if there is one, is newer than its permit and about this observation. */
  ghost predicate Orderly(s: State, observation: Digest) {
    && s.reconciled.None?
    && (s.receipt.Some? ==>
          && s.permit.Some? && s.permit.value.consumedAt <= s.receipt.value.judgedAt
          && s.receipt.value.observation == observation)
  }

  lemma InvokeOrderly(x: Ctx, s: State, w: World)
    requires Inv(x, s) && Orderly(s, w.observation) && w.consumedAt <= w.judgedAt
    ensures Orderly(Invoke(x, s, w).0, w.observation)
  {
    OpenKeeps(x, Live(s, w.steps));
    var f := Open(Live(s, w.steps));
    if f.Live? && f.s.action in {Absent, Reserved} && f.s.receipt.None? { CallOrderly(x, f, w); }
  }

  lemma CallOrderly(x: Ctx, f: Flow, w: World)
    requires f.Live? && Inv(x, f.s) && f.s.action in {Absent, Reserved} && f.s.receipt.None? && f.s.reconciled.None?
    requires w.consumedAt <= w.judgedAt
    ensures Orderly(Call(x, f, w).s, w.observation)
  {
    if w.transport {
      var f1 := Reserve(f, w);
      if f1.Live? {
        var f2 := ConsumePermit(x, f1, w);
        if f2.Live? {
          var f3 := Send(f2, w);
          assert f3.s.permit == f2.s.permit && f3.s.reconciled.None? && f3.s.receipt.None?;
          if f3.Live? && f3.s.raw.Some? && f3.s.permit.Some? {
            var f4 := WriteReceipt(x, f3, w);
            assert Orderly(f4.s, w.observation);
            if f4.Live? { CompleteOrderly(x, f4, w); }
          }
        }
      }
    }
  }

  lemma CompleteOrderly(x: Ctx, f: Flow, w: World)
    requires f.Live? && Orderly(f.s, w.observation)
    ensures Orderly(Complete(x, f, w).s, w.observation)
  {
  }

  lemma {:induction false} RunOrderly(x: Ctx, s: State, ops: seq<Op>, observation: Digest)
    requires Inv(x, s) && Orderly(s, observation) && Forward(ops, observation)
    ensures Orderly(Run(x, s, ops), observation)
    decreases |ops|
  {
    if ops != [] {
      InvokeKeeps(x, s, ops[0].world);
      InvokeOrderly(x, s, ops[0].world);
      RunOrderly(x, Step(x, s, ops[0]), ops[1..], observation);
    }
  }

  /** Without reconciliations, on clocks that do not run back inside an invocation, the receipt
      alone decides: after any invocations that consumed the permit, a further one that lives long
      enough succeeds exactly when the receipt was filed. */
  lemma ReceiptDecides(x: Ctx, ops: seq<Op>, w: World)
    requires x.Valid() && Forward(ops, w.observation) && ENOUGH <= w.steps && Run(x, INITIAL, ops).permit.Some?
    ensures Invoke(x, Run(x, INITIAL, ops), w).1.Judged? <==> Run(x, INITIAL, ops).receipt.Some?
  {
    RunKeeps(x, INITIAL, ops);
    RunOrderly(x, INITIAL, ops, w.observation);
    SuccessAfterPermit(x, Run(x, INITIAL, ops), w);
  }

  // ----- receipts older than their permit -----

  /** A receipt dated before its permit, for an action still unknown. */
  ghost predicate Backdated(s: State) {
    && s.action == Unknown && s.permit.Some? && s.receipt.Some? && s.receipt.value.judgedAt < s.permit.value.consumedAt
  }

  lemma InvokeBackdated(x: Ctx, s: State, w: World)
    requires Inv(x, s) && Backdated(s)
    ensures var (t, result) := Invoke(x, s, w);
            !result.Judged? && Backdated(t) && t.receipt == s.receipt && Inv(x, t)
  {
    InvokeKeeps(x, s, w);
  }

  /** No number of invocations alone ever accepts it. */
  lemma {:induction false} BackdatedStays(x: Ctx, s: State, ops: seq<Op>, w: World)
    requires Inv(x, s) && Backdated(s) && JudgeOnly(ops)
    ensures Backdated(Run(x, s, ops)) && Run(x, s, ops).receipt == s.receipt
    ensures !Invoke(x, Run(x, s, ops), w).1.Judged?
    decreases |ops|
  {
    if ops != [] {
      InvokeBackdated(x, s, ops[0].world);
      BackdatedStays(x, Step(x, s, ops[0]), ops[1..], w);
    } else {
      InvokeBackdated(x, s, w);
    }
  }

  /** A reconciliation that lives long enough makes it acceptable exactly by agreeing: the action
      succeeded, at the receipt's cost. */
  lemma BackdatedAfterReconciliation(x: Ctx, s: State, d: Finding, w: World)
    requires x.Valid() && Inv(x, s) && Backdated(s) && s.receipt.value.observation == w.observation
    requires ENOUGH <= d.steps && ENOUGH <= w.steps && 0.0 <= d.cost <= x.maxCost
    ensures Invoke(x, Reconcile(x, s, d), w).1.Judged? <==> d.succeeded && d.cost == s.receipt.value.cost
  {
    ReconcileKeeps(x, s, d);
    ReconciledFully(x, s, d);
    SuccessAfterPermit(x, Reconcile(x, s, d), w);
  }

  lemma ReconciledFully(x: Ctx, s: State, d: Finding)
    requires Inv(x, s) && s.action == Unknown && ENOUGH <= d.steps && 0.0 <= d.cost <= x.maxCost
    ensures var t := Reconcile(x, s, d);
            && t.action == (if d.succeeded then Succeeded else Failed) && t.receipt == s.receipt && t.permit == s.permit
            && t.intent.Some? && t.intent.value.cost == d.cost
  {
    assert s.intent.None? && s.ledgerSettled.None? && s.settled.None?;
  }

  /** The same over runs: a backdated receipt is never accepted by invocations alone, and accepted
      after a reconciliation exactly when that agrees with it. */
  lemma BackdatedRuns(x: Ctx, ops: seq<Op>, more: seq<Op>, d: Finding, w: World)
    requires x.Valid() && Backdated(Run(x, INITIAL, ops)) && JudgeOnly(more)
    requires Run(x, INITIAL, ops).receipt.value.observation == w.observation
    requires ENOUGH <= d.steps && ENOUGH <= w.steps && 0.0 <= d.cost <= x.maxCost
    ensures var s := Run(x, INITIAL, ops);
            var t := Run(x, s, more);
            && !Invoke(x, t, w).1.Judged?
            && (Invoke(x, Reconcile(x, t, d), w).1.Judged? <==> d.succeeded && d.cost == s.receipt.value.cost)
  {
    var s := Run(x, INITIAL, ops);
    RunKeeps(x, INITIAL, ops);
    RunKeeps(x, s, more);
    BackdatedStays(x, s, more, w);
    BackdatedAfterReconciliation(x, Run(x, s, more), d, w);
  }

  /** One invocation on a clock set back between permit and judgment gets there. */
  lemma BackdatedExample() returns (x: Ctx, ops: seq<Op>, w: World, d: Finding)
    ensures x.Valid() && JudgeOnly(ops) && Backdated(Run(x, INITIAL, ops))
    ensures Invoke(x, Run(x, INITIAL, ops), w).1 == Refused
    ensures Invoke(x, Reconcile(x, Run(x, INITIAL, ops), d), w).1 == Judged(7, 4, 5)
  {
    x := Ctx((o: Digest) => o, (raw: nat, o: Digest) => Some(Reply(7, 0.5)), (raw: nat) => raw + 1, 1.0);
    w := World(2, true, true, Some(3), 10, 5, 6, 20);
    d := Finding(true, 0.5, 20, 20);
    ops := [Judge(w)];
    var s := Invoke(x, INITIAL, w).0;
    assert ops[1..] == [];
    assert Run(x, INITIAL, ops) == s;
    assert s == State(true, Unknown, Some(2), Some(Permit(2, 2, 10)), 1, Some(3), Some(Receipt(2, 2, 4, 0.5, 5)),
                      None, None, None, None);
    var t := Reconcile(x, s, d);
    assert t.action == Succeeded && t.settled == Some(Settlement(0.5, 20));
  }
}
