/** The closing command over its durable state: a directory of create-once files and the phase
    fields of the journal, each method proved to move them as the closeout machine does. */
module Closer {
  import opened Prelude
  import opened Acceptance
  import opened Closeout

  class RunCloser {
    const t: Terms
    var vault: Vault
    var phase: Phase
    var finalEvent: Digest
    var finalAt: Time
    var evaluation: Digest
    var chain: Digest

    function View(): State
      reads this
    {
      State(vault, phase, finalEvent, finalAt, evaluation, chain)
    }

    constructor (t: Terms, s: State)
      ensures this.t == t && View() == s
    {
      this.t := t;
      vault, phase, finalEvent := s.vault, s.phase, s.finalEvent;
      finalAt, evaluation, chain := s.finalAt, s.evaluation, s.chain;
    }

    method WriteOrValidateExact(slot: Slot, page: Page) returns (ok: bool)
      modifies this`vault
      ensures var w := Write(t, old(vault), slot, page);
              ok == w.Some? && vault == if ok then w.value else old(vault)
    {
      if slot in vault { return t.seal(vault[slot]) == t.seal(Page(page)); }
      vault := vault[slot := Page(page)];
      return true;
    }

    /** Writes the files of a plan in order, dying before write number `steps`. */
    method WriteEach(plan: seq<(Slot, Page)>, steps: nat) returns (r: Option<bool>)
      modifies this`vault
      ensures (vault, r) == WriteAll(t, old(vault), plan, steps)
    {
      var i := 0;
      while i < |plan|
        invariant 0 <= i <= |plan| && i <= steps
        invariant WriteAll(t, vault, plan[i..], steps - i) == WriteAll(t, old(vault), plan, steps)
      {
        assert plan[i..][0] == plan[i] && plan[i..][1..] == plan[i + 1..];
        if i == steps { return None; }
        var ok := WriteOrValidateExact(plan[i].0, plan[i].1);
        if !ok { return Some(false); }
        i := i + 1;
      }
      return Some(true);
    }

    method LoadOrCommitDefectLedger(rs: seq<Record>, steps: nat) returns (out: Closeout.Outcome)
      requires rs != []
      modifies this`vault
      ensures (vault, out) == LoadOrCommitLedger(t, rs, old(vault), steps)
    {
      if (LedgerSlot in vault) != (LedgerReceiptSlot in vault) { return Rejected; }
      if LedgerSlot !in vault {
        if FailedExecutions(t, rs) != {} { return Rejected; }
        var written := WriteEach(LedgerPlan(t, rs), steps);
        if written.None? { return Interrupted; }
        return if written.value then Done(CloseOf(t, rs, EmptyLedger(t, rs), EmptyLedgerReceipt(t, rs))) else Rejected;
      }
      if !LedgerPairOk(t, rs, vault[LedgerSlot], vault[LedgerReceiptSlot]) { return Rejected; }
      return Done(CloseOf(t, rs, t.Parse(vault[LedgerSlot]).value, t.Parse(vault[LedgerReceiptSlot]).value));
    }

    method FinalizeRun(rs: seq<Record>, steps: nat) returns (out: Closeout.Outcome)
      modifies this`vault
      ensures (vault, out) == Finalize(t, rs, old(vault), steps)
    {
      if !Closable(t, rs) { return Rejected; }
      var written := WriteEach(EvaluationPlan(t, rs), steps);
      if written.None? { return Interrupted; }
      if !written.value { return Rejected; }
      out := LoadOrCommitDefectLedger(rs, if steps < 3 then 0 else steps - 3);
    }

    /** The `close-execution` command. */
    method CloseExecution(rs: seq<Record>, w: World) returns (verdict: Verdict)
      modifies this
      ensures (View(), verdict) == Closeout.CloseExecution(t, rs, old(View()), w)
    {
      var out := FinalizeRun(rs, w.steps);
      if out.Rejected? { return Failed; }
      if out.Interrupted? || w.steps <= 5 { return Died; }
      verdict := AdvancePhases(rs, w, w.steps - 5);
    }

    method AdvancePhases(rs: seq<Record>, w: World, steps: nat) returns (verdict: Verdict)
      requires rs != [] && steps > 0
      modifies this`phase, this`finalEvent, this`finalAt, this`evaluation, this`chain
      ensures (View(), verdict) == Advance(t, rs, old(View()), w, steps)
    {
      var event, at := t.seal(Page(FinalPage(t, rs))), rs[|rs| - 1].claim.acceptedAt;
      var bundle := t.seal(Page(BundlePage(t, rs)));
      if phase == Executing {
        if w.blocked { return Failed; }
        phase, finalEvent, finalAt := FinalTurnAnchored, event, at;
      } else if phase == FinalTurnAnchored && (finalEvent != event || finalAt != at) {
        return Failed;
      }
      if steps == 1 { return Died; }
      if phase == FinalTurnAnchored {
        if !w.readback { return Failed; }
        phase := FinalReadbackSealed;
      }
      if steps == 2 { return Died; }
      if phase == FinalReadbackSealed {
        phase, evaluation := Evaluated, bundle;
      } else if phase == Evaluated && evaluation != bundle {
        return Failed;
      }
      if steps == 3 { return Died; }
      if phase == Evaluated {
        phase, chain := AttemptCommitted, Fold(rs);
      } else if phase == AttemptCommitted && chain != Fold(rs) {
        return Failed;
      }
      return Reached(phase);
    }
  }
}
