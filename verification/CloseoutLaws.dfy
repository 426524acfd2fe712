/** Closing converges: finalize reads no clock, so it replays exactly, a death between writes is
    harmless except inside the ledger pair, and the phases always anchor the same digests. */
module CloseoutLaws {
  import opened Prelude
  import opened Acceptance
  import opened Closeout

  /** `w` keeps every file of `v`: what create-once files allow to happen later. */
  ghost predicate Keeps(v: Vault, w: Vault) {
    forall slot :: slot in v ==> slot in w && w[slot] == v[slot]
  }

  lemma {:induction false} WriteAllKeeps(t: Terms, v: Vault, plan: seq<(Slot, Page)>, steps: nat)
    ensures Keeps(v, WriteAll(t, v, plan, steps).0)
    decreases |plan|
  {
    if plan != [] && steps > 0 {
      var w := Write(t, v, plan[0].0, plan[0].1);
      if w.Some? { WriteAllKeeps(t, w.value, plan[1..], steps - 1); }
    }
  }

  /** The planned files are all there, byte for byte. */
  ghost predicate Written(t: Terms, v: Vault, plan: seq<(Slot, Page)>) {
    forall i :: 0 <= i < |plan| ==> plan[i].0 in v && v[plan[i].0] == Page(plan[i].1)
  }

  lemma {:induction false} WriteAllWrites(t: Terms, v: Vault, plan: seq<(Slot, Page)>, steps: nat)
    requires t.Injective() && WriteAll(t, v, plan, steps).1 == Some(true)
    ensures Written(t, WriteAll(t, v, plan, steps).0, plan)
    decreases |plan|
  {
    if plan != [] {
      var w := Write(t, v, plan[0].0, plan[0].1).value;
      assert w[plan[0].0] == Page(plan[0].1);
      WriteAllKeeps(t, w, plan[1..], steps - 1);
      WriteAllWrites(t, w, plan[1..], steps - 1);
    }
  }

  /** Writing what is already there changes nothing. */
  lemma {:induction false} WriteAllReplays(t: Terms, v: Vault, plan: seq<(Slot, Page)>, steps: nat)
    requires Written(t, v, plan) && |plan| <= steps
    ensures WriteAll(t, v, plan, steps) == (v, Some(true))
    decreases |plan|
  {
    if plan != [] {
      assert plan[0].0 in v && v[plan[0].0] == Page(plan[0].1);
      assert forall i :: 0 <= i < |plan| - 1 ==> plan[1..][i] == plan[i + 1];
      WriteAllReplays(t, v, plan[1..], steps - 1);
    }
  }

  /** Dying within the plan and starting over is the same as running through. */
  lemma {:induction false} WriteAllResumes(t: Terms, v: Vault, plan: seq<(Slot, Page)>, steps: nat, again: nat)
    requires |plan| <= again
    ensures WriteAll(t, WriteAll(t, v, plan, steps).0, plan, again).1 == WriteAll(t, v, plan, again).1
    ensures WriteAll(t, v, plan, again).1 == Some(true) ==>
              WriteAll(t, WriteAll(t, v, plan, steps).0, plan, again) == WriteAll(t, v, plan, again)
    decreases |plan|
  {
    if plan != [] && steps > 0 {
      var w := Write(t, v, plan[0].0, plan[0].1);
      if w.Some? {
        var after := WriteAll(t, w.value, plan[1..], steps - 1).0;
        WriteAllKeeps(t, w.value, plan[1..], steps - 1);
        WriteAllResumes(t, w.value, plan[1..], steps - 1, again - 1);
        assert Write(t, after, plan[0].0, plan[0].1) == Some(after);
      }
    }
  }

  // ----- finalize -----

  lemma WrittenStays(t: Terms, v: Vault, w: Vault, plan: seq<(Slot, Page)>)
    requires Written(t, v, plan) && Keeps(v, w)
    ensures Written(t, w, plan)
  {
    forall i | 0 <= i < |plan| ensures plan[i].0 in w && w[plan[i].0] == Page(plan[i].1) {
      assert plan[i].0 in v;
    }
  }

  /** The evaluation is on file, and a ledger pair that closes the run as `c`. */
  ghost predicate ClosedAs(t: Terms, rs: seq<Record>, v: Vault, c: Close) {
    && Closable(t, rs) && Written(t, v, EvaluationPlan(t, rs))
    && LedgerSlot in v && LedgerReceiptSlot in v
    && LedgerPairOk(t, rs, v[LedgerSlot], v[LedgerReceiptSlot])
    && c == CloseOf(t, rs, t.Parse(v[LedgerSlot]).value, t.Parse(v[LedgerReceiptSlot]).value)
  }

  lemma FinalizeCloses(t: Terms, rs: seq<Record>, v: Vault, steps: nat)
    requires t.Injective() && Finalize(t, rs, v, steps).1.Done?
    ensures ClosedAs(t, rs, Finalize(t, rs, v, steps).0, Finalize(t, rs, v, steps).1.close)
  {
    var w := WriteAll(t, v, EvaluationPlan(t, rs), steps).0;
    WriteAllWrites(t, v, EvaluationPlan(t, rs), steps);
    LedgerCloses(t, rs, w, if steps < 3 then 0 else steps - 3);
    WrittenStays(t, w, Finalize(t, rs, v, steps).0, EvaluationPlan(t, rs));
  }

  lemma LedgerCloses(t: Terms, rs: seq<Record>, v: Vault, steps: nat)
    requires t.Injective() && Closable(t, rs) && LoadOrCommitLedger(t, rs, v, steps).1.Done?
    ensures var (w, out) := LoadOrCommitLedger(t, rs, v, steps);
            && Keeps(v, w) && LedgerSlot in w && LedgerReceiptSlot in w
            && LedgerPairOk(t, rs, w[LedgerSlot], w[LedgerReceiptSlot])
            && out.close == CloseOf(t, rs, t.Parse(w[LedgerSlot]).value, t.Parse(w[LedgerReceiptSlot]).value)
  {
    if LedgerSlot !in v {
      var plan := LedgerPlan(t, rs);
      WriteAllKeeps(t, v, plan, steps);
      WriteAllWrites(t, v, plan, steps);
      var w := WriteAll(t, v, plan, steps).0;
      assert plan[0].0 in w && plan[1].0 in w;
      assert (set e | e in EmptyLedger(t, rs).entries :: e.execution) == {};
    }
  }

  /** After one success every later call, at any time and whatever files were added meanwhile,
      returns the same result and leaves every file as it is. */
  lemma FinalizeReplays(t: Terms, rs: seq<Record>, v: Vault, steps: nat, later: Vault, again: nat)
    requires t.Injective() && Finalize(t, rs, v, steps).1.Done?
    requires Keeps(Finalize(t, rs, v, steps).0, later) && 3 <= again
    ensures Finalize(t, rs, later, again) == (later, Finalize(t, rs, v, steps).1)
  {
    FinalizeCloses(t, rs, v, steps);
    ClosedReplays(t, rs, Finalize(t, rs, v, steps).0, later, Finalize(t, rs, v, steps).1.close, again);
  }

  lemma ClosedReplays(t: Terms, rs: seq<Record>, v: Vault, later: Vault, c: Close, again: nat)
    requires ClosedAs(t, rs, v, c) && Keeps(v, later) && 3 <= again
    ensures ClosedAs(t, rs, later, c)
    ensures Finalize(t, rs, later, again) == (later, Done(c))
  {
    WrittenStays(t, v, later, EvaluationPlan(t, rs));
    WriteAllReplays(t, later, EvaluationPlan(t, rs), again);
  }

  /** One of the two ledger files is there and the other is not. */
  ghost predicate Torn(v: Vault) { (LedgerSlot in v) != (LedgerReceiptSlot in v) }

  /** A death before any write is made good by calling again, with the same files and the same
      result, except between the two writes of a fresh ledger pair. */
  lemma FinalizeResumes(t: Terms, rs: seq<Record>, v: Vault, steps: nat)
    requires t.Injective() && Finalize(t, rs, v, 5).1.Done?
    ensures Finalize(t, rs, Finalize(t, rs, v, steps).0, 5) == Finalize(t, rs, v, 5)
       <==> !(steps == 4 && LedgerSlot !in v)
  {
    var plan := EvaluationPlan(t, rs);
    var full := WriteAll(t, v, plan, 5).0;
    PlanPastEnd(t, v, plan, steps, 5);
    WriteAllSpares(t, v, plan, 5, LedgerSlot);
    if steps < 3 {
      WriteAllResumes(t, v, plan, steps, 5);
    } else {
      LedgerResumes(t, rs, full, steps - 3);
      var d := LoadOrCommitLedger(t, rs, full, steps - 3).0;
      WriteAllWrites(t, v, plan, 5);
      LedgerKeeps(t, rs, full, steps - 3);
      WrittenStays(t, full, d, plan);
      WriteAllReplays(t, d, plan, 5);
    }
  }

  /** Budgets beyond the length of the plan make no difference; shorter ones are cut off. */
  lemma {:induction false} PlanPastEnd(t: Terms, v: Vault, plan: seq<(Slot, Page)>, steps: nat, more: nat)
    requires |plan| <= more && WriteAll(t, v, plan, more).1 == Some(true)
    ensures if steps < |plan| then WriteAll(t, v, plan, steps).1.None?
            else WriteAll(t, v, plan, steps) == WriteAll(t, v, plan, more)
    decreases |plan|
  {
    if plan != [] && steps > 0 {
      PlanPastEnd(t, Write(t, v, plan[0].0, plan[0].1).value, plan[1..], steps - 1, more - 1);
    }
  }

  /** Only planned slots are created. */
  lemma {:induction false} WriteAllSpares(t: Terms, v: Vault, plan: seq<(Slot, Page)>, steps: nat, slot: Slot)
    requires forall i :: 0 <= i < |plan| ==> plan[i].0 != slot
    ensures slot in WriteAll(t, v, plan, steps).0 <==> slot in v
    decreases |plan|
  {
    if plan != [] && steps > 0 {
      assert plan[0].0 != slot;
      var w := Write(t, v, plan[0].0, plan[0].1);
      if w.Some? { WriteAllSpares(t, w.value, plan[1..], steps - 1, slot); }
    }
  }

  lemma LedgerKeeps(t: Terms, rs: seq<Record>, v: Vault, steps: nat)
    requires rs != []
    ensures Keeps(v, LoadOrCommitLedger(t, rs, v, steps).0)
  {
    WriteAllKeeps(t, v, LedgerPlan(t, rs), steps);
  }

  lemma LedgerResumes(t: Terms, rs: seq<Record>, v: Vault, steps: nat)
    requires t.Injective() && Closable(t, rs) && LoadOrCommitLedger(t, rs, v, 2).1.Done?
    ensures LoadOrCommitLedger(t, rs, LoadOrCommitLedger(t, rs, v, steps).0, 2) == LoadOrCommitLedger(t, rs, v, 2)
       <==> !(steps == 1 && LedgerSlot !in v)
  {
    var plan := LedgerPlan(t, rs);
    if LedgerSlot !in v {
      assert plan[1..] == [(LedgerReceiptSlot, EmptyLedgerReceipt(t, rs))];
      assert plan[1..][1..] == [];
      PlanPastEnd(t, v, plan, steps, 2);
      if steps >= 2 {
        LedgerCloses(t, rs, v, 2);
      }
    }
  }

  /** A torn ledger pair is refused by every later call, which cannot mend it either. */
  lemma TornStays(t: Terms, rs: seq<Record>, v: Vault, steps: nat)
    requires Torn(v)
    ensures !Finalize(t, rs, v, steps).1.Done? && Torn(Finalize(t, rs, v, steps).0)
  {
    if Closable(t, rs) {
      var plan := EvaluationPlan(t, rs);
      WriteAllSpares(t, v, plan, steps, LedgerSlot);
      WriteAllSpares(t, v, plan, steps, LedgerReceiptSlot);
    }
  }
}
