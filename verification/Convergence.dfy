/** The close-execution command over any number of interrupted invocations. */
module Convergence {
  import opened Prelude
  import opened Acceptance
  import opened Closeout
  import opened CloseoutLaws

  /** Whatever has been anchored so far is what the accepted records determine. */
  ghost predicate Anchored(t: Terms, rs: seq<Record>, s: State)
    requires rs != []
  {
    && (Rank(s.phase) >= 2 ==>
          s.finalEvent == t.seal(Page(FinalPage(t, rs))) && s.finalAt == rs[|rs| - 1].claim.acceptedAt)
    && (Rank(s.phase) >= 4 ==> s.evaluation == t.seal(Page(BundlePage(t, rs))))
    && (s.phase == AttemptCommitted ==> s.chain == Fold(rs))
  }

  /** Past the executing phase, the files closed the run. */
  ghost predicate Backed(t: Terms, rs: seq<Record>, s: State) {
    Rank(s.phase) >= 2 ==> exists c :: ClosedAs(t, rs, s.vault, c)
  }

  lemma PhasesKeep(t: Terms, rs: seq<Record>, s: State, w: World)
    requires rs != [] && Anchored(t, rs, s)
    ensures KeptBy(t, rs, s, Anchor(t, rs, s, w.blocked)) && KeptBy(t, rs, s, SealReadback(s, w.readback))
    ensures KeptBy(t, rs, s, MarkEvaluated(t, rs, s)) && KeptBy(t, rs, s, CommitPhase(t, rs, s))
  {
  }

  /** A transition, if it happens, leads to right anchors and not back. */
  ghost predicate KeptBy(t: Terms, rs: seq<Record>, s: State, next: Option<State>)
    requires rs != []
  {
    next.Some? ==>
      Anchored(t, rs, next.value) && Rank(s.phase) <= Rank(next.value.phase) && next.value.vault == s.vault
  }

  /** An intermediate state of an invocation. */
  ghost predicate Progressed(t: Terms, rs: seq<Record>, s: State, s': State)
    requires rs != []
  {
    Anchored(t, rs, s') && Rank(s.phase) <= Rank(s'.phase) && s'.vault == s.vault
  }

  lemma LastStepsKeep(t: Terms, rs: seq<Record>, s: State, w: World, steps: nat)
    requires rs != [] && Anchored(t, rs, s) && steps >= 2
    ensures Progressed(t, rs, s, FromEvaluation(t, rs, s, steps).0)
  {
    PhasesKeep(t, rs, s, w);
    var s3 := MarkEvaluated(t, rs, s);
    if s3.Some? { PhasesKeep(t, rs, s3.value, w); }
  }

  lemma AdvanceKeeps(t: Terms, rs: seq<Record>, s: State, w: World, steps: nat)
    requires rs != [] && Anchored(t, rs, s)
    ensures Progressed(t, rs, s, Advance(t, rs, s, w, steps).0)
  {
    PhasesKeep(t, rs, s, w);
    var s1 := Anchor(t, rs, s, w.blocked);
    if s1.Some? {
      PhasesKeep(t, rs, s1.value, w);
      var s2 := SealReadback(s1.value, w.readback);
      if s2.Some? && steps > 2 { LastStepsKeep(t, rs, s2.value, w, steps); }
    }
  }

  /** One invocation, however it ends, keeps the anchors and never takes a phase back. */
  lemma InvocationKeeps(t: Terms, rs: seq<Record>, s: State, w: World)
    requires t.Injective() && rs != [] && Anchored(t, rs, s) && Backed(t, rs, s)
    ensures var s' := CloseExecution(t, rs, s, w).0;
            Anchored(t, rs, s') && Backed(t, rs, s') && Rank(s.phase) <= Rank(s'.phase) && Keeps(s.vault, s'.vault)
  {
    var f := Finalize(t, rs, s.vault, w.steps);
    FinalizeKeeps(t, rs, s.vault, w.steps);
    if Rank(s.phase) >= 2 {
      var c :| ClosedAs(t, rs, s.vault, c);
      ClosedStays(t, rs, s.vault, f.0, c);
    }
    if f.1.Done? {
      FinalizeCloses(t, rs, s.vault, w.steps);
      AdvanceKeeps(t, rs, s.(vault := f.0), w, if w.steps < 5 then 0 else w.steps - 5);
    }
  }

  lemma ClosedStays(t: Terms, rs: seq<Record>, v: Vault, later: Vault, c: Close)
    requires ClosedAs(t, rs, v, c) && Keeps(v, later)
    ensures ClosedAs(t, rs, later, c)
  {
    WrittenStays(t, v, later, EvaluationPlan(t, rs));
  }

  lemma FinalizeKeeps(t: Terms, rs: seq<Record>, v: Vault, steps: nat)
    ensures Keeps(v, Finalize(t, rs, v, steps).0)
  {
    if Closable(t, rs) {
      WriteAllKeeps(t, v, EvaluationPlan(t, rs), steps);
      LedgerKeeps(t, rs, WriteAll(t, v, EvaluationPlan(t, rs), steps).0, if steps < 3 then 0 else steps - 3);
    }
  }

  lemma {:induction false} RetriesKeep(t: Terms, rs: seq<Record>, s: State, ws: seq<World>)
    requires t.Injective() && rs != [] && Anchored(t, rs, s) && Backed(t, rs, s)
    ensures var s' := Retries(t, rs, s, ws);
            Anchored(t, rs, s') && Backed(t, rs, s') && Rank(s.phase) <= Rank(s'.phase) && Keeps(s.vault, s'.vault)
    decreases |ws|
  {
    if ws != [] {
      InvocationKeeps(t, rs, s, ws[0]);
      RetriesKeep(t, rs, CloseExecution(t, rs, s, ws[0]).0, ws[1..]);
    }
  }

  /** An invocation nothing stands in the way of: no open action, a final readback, no death. */
  ghost predicate Clear(w: World) { !w.blocked && w.readback && w.steps >= 9 }

  /** The one anchor an invocation compares in the phase it starts from. */
  ghost predicate NoDrift(t: Terms, rs: seq<Record>, s: State)
    requires rs != []
  {
    && (s.phase == FinalTurnAnchored ==>
          s.finalEvent == t.seal(Page(FinalPage(t, rs))) && s.finalAt == rs[|rs| - 1].claim.acceptedAt)
    && (s.phase == Evaluated ==> s.evaluation == t.seal(Page(BundlePage(t, rs))))
    && (s.phase == AttemptCommitted ==> s.chain == Fold(rs))
  }

  /** From any phase at all, a clear invocation either refuses, exactly on drift of the anchor of
      that phase, or commits the attempt chain. */
  lemma ClearInvocation(t: Terms, rs: seq<Record>, s: State, w: World)
    requires Clear(w) && rs != [] && s.phase != Earlier && Finalize(t, rs, s.vault, w.steps).1.Done?
    ensures var (s', verdict) := CloseExecution(t, rs, s, w);
            if NoDrift(t, rs, s) then
              && verdict == Reached(AttemptCommitted) && s'.phase == AttemptCommitted && s'.chain == Fold(rs)
              && s'.evaluation == (if Rank(s.phase) <= 3 then t.seal(Page(BundlePage(t, rs))) else s.evaluation)
              && (if Rank(s.phase) == 1 then
                    s'.finalEvent == t.seal(Page(FinalPage(t, rs))) && s'.finalAt == rs[|rs| - 1].claim.acceptedAt
                  else s'.finalEvent == s.finalEvent && s'.finalAt == s.finalAt)
            else verdict == Failed && s' == s.(vault := s'.vault)
  {
  }

  /** A larger budget than finalize has writes changes nothing. */
  lemma FinalizeBudget(t: Terms, rs: seq<Record>, v: Vault, steps: nat)
    requires 5 <= steps && Finalize(t, rs, v, 5).1.Done?
    ensures Finalize(t, rs, v, steps) == Finalize(t, rs, v, 5)
  {
    var plan := EvaluationPlan(t, rs);
    EnoughBudget(t, v, plan, steps);
    EnoughBudget(t, v, plan, 5);
    LedgerBudget(t, rs, WriteAll(t, v, plan, 5).0, steps - 3);
  }

  lemma LedgerBudget(t: Terms, rs: seq<Record>, v: Vault, steps: nat)
    requires rs != [] && 2 <= steps
    ensures LoadOrCommitLedger(t, rs, v, steps) == LoadOrCommitLedger(t, rs, v, 2)
  {
    EnoughBudget(t, v, LedgerPlan(t, rs), steps);
    EnoughBudget(t, v, LedgerPlan(t, rs), 2);
  }

  lemma {:induction false} EnoughBudget(t: Terms, v: Vault, plan: seq<(Slot, Page)>, steps: nat)
    requires |plan| <= steps
    ensures WriteAll(t, v, plan, steps) == WriteAll(t, v, plan, |plan|)
    decreases |plan|
  {
    if plan != [] {
      var w := Write(t, v, plan[0].0, plan[0].1);
      if w.Some? { EnoughBudget(t, w.value, plan[1..], steps - 1); }
    }
  }

  lemma AdvanceCommitted(t: Terms, rs: seq<Record>, s: State, w: World, steps: nat)
    requires rs != [] && s.phase == AttemptCommitted && s.chain == Fold(rs) && 4 <= steps
    ensures Advance(t, rs, s, w, steps) == (s, Reached(AttemptCommitted))
  {
  }

  lemma Committed(t: Terms, rs: seq<Record>, v: Vault, steps: nat, s: State, again: World)
    requires t.Injective() && rs != [] && Clear(again) && Finalize(t, rs, v, steps).1.Done?
    requires s.phase == AttemptCommitted && Anchored(t, rs, s) && s.vault == Finalize(t, rs, v, steps).0
    ensures CloseExecution(t, rs, s, again) == (s, Reached(AttemptCommitted))
  {
    FinalizeReplays(t, rs, v, steps, s.vault, again.steps);
    AdvanceCommitted(t, rs, s, again, again.steps - 5);
    OnlyAdvances(t, rs, s, again);
  }

  /** Over files that are finalized already, an invocation consists of its transitions. */
  lemma OnlyAdvances(t: Terms, rs: seq<Record>, s: State, w: World)
    requires rs != [] && 5 <= w.steps
    requires Finalize(t, rs, s.vault, w.steps).1.Done? && Finalize(t, rs, s.vault, w.steps).0 == s.vault
    ensures CloseExecution(t, rs, s, w) == Advance(t, rs, s, w, w.steps - 5)
  {
    assert s.(vault := s.vault) == s;
  }

  lemma InvocationVault(t: Terms, rs: seq<Record>, s: State, w: World)
    ensures CloseExecution(t, rs, s, w).0.vault == Finalize(t, rs, s.vault, w.steps).0
  {
  }

  /** A death between the two ledger files blocks the run for good: no number of retries ever
      leaves the phase. */
  lemma {:induction false} TornLedgerBlocks(t: Terms, rs: seq<Record>, s: State, ws: seq<World>)
    requires Torn(s.vault)
    ensures var s' := Retries(t, rs, s, ws); s'.phase == s.phase && Torn(s'.vault)
    decreases |ws|
  {
    if ws != [] {
      TornStays(t, rs, s.vault, ws[0].steps);
      TornLedgerBlocks(t, rs, CloseExecution(t, rs, s, ws[0]).0, ws[1..]);
    }
  }

  // ----- what interruptions do to the files -----

  /** The first invocation that lives to the ledger dies between its two files. */
  function Tears(ws: seq<World>): bool {
    ws != [] && (if ws[0].steps < 4 then Tears(ws[1..]) else ws[0].steps == 4)
  }

  lemma {:induction false} FinalizeBudgetFailed(t: Terms, rs: seq<Record>, v: Vault, steps: nat)
    requires 5 <= steps && !Finalize(t, rs, v, 5).1.Done?
    ensures Finalize(t, rs, v, steps).1 == Rejected
  {
    if Closable(t, rs) {
      var plan := EvaluationPlan(t, rs);
      EnoughBudget(t, v, plan, steps);
      EnoughBudget(t, v, plan, 5);
      var w := WriteAll(t, v, plan, 5).0;
      EnoughBudget(t, w, LedgerPlan(t, rs), steps - 3);
      EnoughBudget(t, w, LedgerPlan(t, rs), 2);
      NeverInterrupted(t, v, plan, steps);
      NeverInterrupted(t, w, LedgerPlan(t, rs), 2);
    }
  }

  lemma {:induction false} NeverInterrupted(t: Terms, v: Vault, plan: seq<(Slot, Page)>, steps: nat)
    requires |plan| <= steps
    ensures WriteAll(t, v, plan, steps).1.Some?
    decreases |plan|
  {
    if plan != [] {
      var w := Write(t, v, plan[0].0, plan[0].1);
      if w.Some? { NeverInterrupted(t, w.value, plan[1..], steps - 1); }
    }
  }

  /** Which ledger files an interrupted finalize leaves, when it could have run through. */
  lemma LedgerFilesAfter(t: Terms, rs: seq<Record>, v: Vault, steps: nat)
    requires t.Injective() && Finalize(t, rs, v, 5).1.Done?
    ensures LedgerSlot in Finalize(t, rs, v, steps).0 <==> LedgerSlot in v || steps >= 4
    ensures LedgerReceiptSlot in Finalize(t, rs, v, steps).0 <==> LedgerReceiptSlot in v || steps >= 5
  {
    var plan := EvaluationPlan(t, rs);
    var w := WriteAll(t, v, plan, 5).0;
    PlanPastEnd(t, v, plan, steps, 5);
    WriteAllSpares(t, v, plan, steps, LedgerSlot);
    WriteAllSpares(t, v, plan, steps, LedgerReceiptSlot);
    WriteAllSpares(t, v, plan, 5, LedgerSlot);
    WriteAllSpares(t, v, plan, 5, LedgerReceiptSlot);
    if steps >= 3 { LedgerPairAfter(t, rs, w, steps - 3); }
  }

  /** What writing a fresh ledger pair leaves after each number of steps. */
  lemma FreshPair(t: Terms, rs: seq<Record>, v: Vault, steps: nat)
    requires rs != [] && LedgerSlot !in v && LedgerReceiptSlot !in v
    ensures var one := v[LedgerSlot := Page(EmptyLedger(t, rs))];
            WriteAll(t, v, LedgerPlan(t, rs), steps)
            == if steps == 0 then (v, None)
               else if steps == 1 then (one, None)
               else (one[LedgerReceiptSlot := Page(EmptyLedgerReceipt(t, rs))], Some(true))
  {
    var plan := LedgerPlan(t, rs);
    var one := v[LedgerSlot := Page(EmptyLedger(t, rs))];
    WriteFresh(t, v, plan, steps);
    if steps > 0 { WriteFresh(t, one, plan[1..], steps - 1); }
    assert plan[1..] == [plan[1]] && plan[1..][1..] == [];
  }

  lemma WriteFresh(t: Terms, v: Vault, plan: seq<(Slot, Page)>, steps: nat)
    requires plan != [] && plan[0].0 !in v
    ensures WriteAll(t, v, plan, steps)
         == if steps == 0 then (v, None) else WriteAll(t, v[plan[0].0 := Page(plan[0].1)], plan[1..], steps - 1)
  {
  }

  lemma LedgerPairAfter(t: Terms, rs: seq<Record>, v: Vault, steps: nat)
    requires t.Injective() && rs != [] && LoadOrCommitLedger(t, rs, v, 2).1.Done?
    ensures LedgerSlot in LoadOrCommitLedger(t, rs, v, steps).0 <==> LedgerSlot in v || steps >= 1
    ensures LedgerReceiptSlot in LoadOrCommitLedger(t, rs, v, steps).0 <==> LedgerReceiptSlot in v || steps >= 2
  {
    if LedgerSlot !in v && LedgerReceiptSlot !in v { FreshPair(t, rs, v, steps); FreshPair(t, rs, v, 2); }
  }

  /** Files that cannot be finalized are not made so by an attempt. */
  lemma NotMended(t: Terms, rs: seq<Record>, v: Vault, steps: nat)
    requires t.Injective() && !Finalize(t, rs, v, 5).1.Done?
    ensures !Finalize(t, rs, Finalize(t, rs, v, steps).0, 5).1.Done?
  {
    if Closable(t, rs) {
      var plan := EvaluationPlan(t, rs);
      WriteAllResumes(t, v, plan, steps, 5);
      var d := WriteAll(t, v, plan, steps).0;
      if WriteAll(t, v, plan, 5).1 == Some(true) {
        PlanPastEnd(t, v, plan, steps, 5);
        if steps >= 3 {
          LedgerNotMended(t, rs, d, steps - 3);
          WriteAllWrites(t, v, plan, 5);
          WriteAllReplays(t, d, plan, 5);
        }
      } else {
        SameVerdict(t, rs, v, steps);
      }
    }
  }

  lemma LedgerNotMended(t: Terms, rs: seq<Record>, v: Vault, steps: nat)
    requires rs != [] && !LoadOrCommitLedger(t, rs, v, 2).1.Done?
    ensures LoadOrCommitLedger(t, rs, v, steps).0 == v
  {
    if LedgerSlot !in v && LedgerReceiptSlot !in v { FreshPair(t, rs, v, steps); FreshPair(t, rs, v, 2); }
  }

  /** A plan that cannot be completed is not finished by an earlier attempt at it. */
  lemma SameVerdict(t: Terms, rs: seq<Record>, v: Vault, steps: nat)
    requires Closable(t, rs) && WriteAll(t, v, EvaluationPlan(t, rs), 5).1 != Some(true)
    ensures !Finalize(t, rs, Finalize(t, rs, v, steps).0, 5).1.Done?
  {
    var plan := EvaluationPlan(t, rs);
    NotDoneBefore(t, v, plan, steps, 5);
    WriteAllResumes(t, v, plan, steps, 5);
  }

  lemma {:induction false} NotDoneBefore(t: Terms, v: Vault, plan: seq<(Slot, Page)>, steps: nat, more: nat)
    requires |plan| <= more && WriteAll(t, v, plan, more).1 != Some(true)
    ensures WriteAll(t, v, plan, steps).1 != Some(true)
    decreases |plan|
  {
    if plan != [] && steps > 0 {
      var w := Write(t, v, plan[0].0, plan[0].1);
      if w.Some? { NotDoneBefore(t, w.value, plan[1..], steps - 1, more - 1); }
    }
  }

  /** After any invocations the files can be finalized exactly when they could at the start and no
      invocation tore a fresh ledger. */
  lemma {:induction false} ClosableIff(t: Terms, rs: seq<Record>, s: State, ws: seq<World>)
    requires t.Injective()
    ensures Finalize(t, rs, Retries(t, rs, s, ws).vault, 5).1.Done?
       <==> Finalize(t, rs, s.vault, 5).1.Done? && !(LedgerSlot !in s.vault && Tears(ws))
    decreases |ws|
  {
    if ws != [] {
      var s1 := CloseExecution(t, rs, s, ws[0]).0;
      var k := ws[0].steps;
      InvocationVault(t, rs, s, ws[0]);
      ClosableIff(t, rs, s1, ws[1..]);
      if Finalize(t, rs, s.vault, 5).1.Done? {
        LedgerFilesAfter(t, rs, s.vault, k);
        FinalizeResumes(t, rs, s.vault, k);
        if k == 4 && LedgerSlot !in s.vault { TornFromHere(t, rs, s, s1); }
      } else {
        NotMended(t, rs, s.vault, k);
      }
    }
  }

  lemma TornFromHere(t: Terms, rs: seq<Record>, s: State, s1: State)
    requires Finalize(t, rs, s.vault, 5).1.Done? && LedgerSlot !in s.vault
    requires LedgerSlot in s1.vault && (LedgerReceiptSlot in s1.vault <==> LedgerReceiptSlot in s.vault)
    ensures !Finalize(t, rs, s1.vault, 5).1.Done?
  {
    WriteAllSpares(t, s.vault, EvaluationPlan(t, rs), 5, LedgerSlot);
    WriteAllSpares(t, s.vault, EvaluationPlan(t, rs), 5, LedgerReceiptSlot);
    TornStays(t, rs, s1.vault, 5);
  }

  /** While the files cannot be finalized the phase does not move. */
  lemma {:induction false} StuckExecuting(t: Terms, rs: seq<Record>, s: State, ws: seq<World>)
    requires t.Injective() && s.phase == Executing && !Finalize(t, rs, Retries(t, rs, s, ws).vault, 5).1.Done?
    ensures Retries(t, rs, s, ws).phase == Executing
    decreases |ws|
  {
    if ws != [] {
      var s1 := CloseExecution(t, rs, s, ws[0]).0;
      var f := Finalize(t, rs, s.vault, ws[0].steps);
      if f.1.Done? {
        FinalizeCloses(t, rs, s.vault, ws[0].steps);
        FinalizeKeepsClosed(t, rs, s1, ws[1..], f.0, f.1.close);
      }
      StuckExecuting(t, rs, s1, ws[1..]);
    }
  }

  lemma {:induction false} FinalizeKeepsClosed(t: Terms, rs: seq<Record>, s: State, ws: seq<World>, v: Vault, c: Close)
    requires t.Injective() && ClosedAs(t, rs, v, c) && s.vault == v
    ensures Finalize(t, rs, Retries(t, rs, s, ws).vault, 5).1.Done?
    decreases |ws|
  {
    if ws != [] {
      FinalizeKeeps(t, rs, s.vault, ws[0].steps);
      var s1 := CloseExecution(t, rs, s, ws[0]).0;
      InvocationVault(t, rs, s, ws[0]);
      ClosedStays(t, rs, v, s1.vault, c);
      FinalizeKeepsClosed(t, rs, s1, ws[1..], s1.vault, c);
    } else {
      ClosedReplays(t, rs, v, v, c, 5);
    }
  }

  /** However often closing was interrupted, blocked or retried before, one clear invocation
      commits the run exactly when the files it started from could be finalized and no invocation
      died between the two files of a fresh ledger. The anchors are then those the records
      determine, and closing again changes nothing; otherwise the run stays where it was. */
  lemma ClosingConverges(t: Terms, rs: seq<Record>, s: State, ws: seq<World>, w: World, again: World)
    requires t.Injective() && rs != [] && s.phase == Executing && Clear(w) && Clear(again)
    ensures var (s', verdict) := CloseExecution(t, rs, Retries(t, rs, s, ws), w);
            if Finalize(t, rs, s.vault, 5).1.Done? && !(LedgerSlot !in s.vault && Tears(ws)) then
              && verdict == Reached(AttemptCommitted) && s'.phase == AttemptCommitted && Anchored(t, rs, s')
              && CloseExecution(t, rs, s', again) == (s', verdict)
            else verdict == Failed && s'.phase == Executing
  {
    RetriesKeep(t, rs, s, ws);
    ClosableIff(t, rs, s, ws);
    var s1 := Retries(t, rs, s, ws);
    if Finalize(t, rs, s1.vault, 5).1.Done? {
      FinalizeBudget(t, rs, s1.vault, w.steps);
      ClearInvocation(t, rs, s1, w);
      InvocationKeeps(t, rs, s1, w);
      InvocationVault(t, rs, s1, w);
      Committed(t, rs, s1.vault, w.steps, CloseExecution(t, rs, s1, w).0, again);
    } else {
      FinalizeBudgetFailed(t, rs, s1.vault, w.steps);
      StuckExecuting(t, rs, s, ws);
    }
  }

  // ----- drift and tearing do occur -----

  /** An anchor that is not compared in the phase an invocation starts from is committed as it is:
      files that can be finalized, a sealed readback, and a wrong final event. */
  lemma DriftSlipsThrough(t: Terms, rs: seq<Record>, v: Vault, w: World) returns (s: State)
    requires Clear(w) && rs != [] && Finalize(t, rs, v, w.steps).1.Done?
    ensures s.vault == v && s.phase == FinalReadbackSealed && !Anchored(t, rs, s)
    ensures var (s', verdict) := CloseExecution(t, rs, s, w);
            verdict == Reached(AttemptCommitted) && s'.finalEvent == s.finalEvent && !Anchored(t, rs, s')
  {
    s := State(v, FinalReadbackSealed, t.seal(Page(FinalPage(t, rs))) + 1, rs[|rs| - 1].claim.acceptedAt, 0, 0);
    ClearInvocation(t, rs, s, w);
  }

  /** And that is the only way: an invocation that commits leaves the anchors right exactly when it
      found them right. */
  lemma CommitKeepsDrift(t: Terms, rs: seq<Record>, s: State, w: World)
    requires Clear(w) && rs != [] && s.phase != Earlier && Finalize(t, rs, s.vault, w.steps).1.Done?
    requires CloseExecution(t, rs, s, w).1 == Reached(AttemptCommitted)
    ensures Anchored(t, rs, CloseExecution(t, rs, s, w).0) <==> Anchored(t, rs, s)
  {
    ClearInvocation(t, rs, s, w);
    SameDrift(t, rs, s, CloseExecution(t, rs, s, w).0);
  }

  lemma SameDrift(t: Terms, rs: seq<Record>, s: State, s': State)
    requires rs != [] && s.phase != Earlier && s'.phase == AttemptCommitted && s'.chain == Fold(rs) && NoDrift(t, rs, s)
    requires s'.evaluation == if Rank(s.phase) <= 3 then t.seal(Page(BundlePage(t, rs))) else s.evaluation
    requires if Rank(s.phase) == 1 then
               s'.finalEvent == t.seal(Page(FinalPage(t, rs))) && s'.finalAt == rs[|rs| - 1].claim.acceptedAt
             else s'.finalEvent == s.finalEvent && s'.finalAt == s.finalAt
    ensures Anchored(t, rs, s') <==> Anchored(t, rs, s)
  {
  }

  /** A run whose executions all passed can be closed from no files at all; but if the invocation
      that does so dies at its fifth write it leaves half a ledger, and no further invocations get
      past that. */
  lemma TearingDeath(t: Terms, rs: seq<Record>, s: State, w: World, ws: seq<World>)
    requires Closable(t, rs) && FailedExecutions(t, rs) == {}
    requires s.vault == map[] && s.phase == Executing && w.steps == 4
    ensures Finalize(t, rs, s.vault, 5).1.Done?
    ensures var torn := CloseExecution(t, rs, s, w).0;
            Torn(torn.vault) && Retries(t, rs, torn, ws).phase == Executing
  {
    var torn := CloseExecution(t, rs, s, w).0;
    EmptyVaultTears(t, rs);
    InvocationVault(t, rs, s, w);
    TornLedgerBlocks(t, rs, torn, ws);
  }

  lemma EmptyVaultTears(t: Terms, rs: seq<Record>)
    requires Closable(t, rs) && FailedExecutions(t, rs) == {}
    ensures Finalize(t, rs, map[], 5).1.Done? && Torn(Finalize(t, rs, map[], 4).0)
    ensures Finalize(t, rs, map[], 4).1 == Interrupted
  {
    EmptyVaultEvaluates(t, rs, 5);
    EmptyVaultEvaluates(t, rs, 4);
    var w := EvaluationFiles(t, rs);
    FreshPair(t, rs, w, 2);
    FreshPair(t, rs, w, 1);
  }

  /** The evaluation files over an empty vault. */
  function EvaluationFiles(t: Terms, rs: seq<Record>): Vault
    requires rs != []
  {
    var evaluated := map[FinalSlot := Page(FinalPage(t, rs))][BundleSlot := Page(BundlePage(t, rs))];
    evaluated[ReceiptSlot := Page(ReceiptPage(t, rs))]
  }

  lemma EmptyVaultEvaluates(t: Terms, rs: seq<Record>, steps: nat)
    requires rs != [] && 3 <= steps
    ensures WriteAll(t, map[], EvaluationPlan(t, rs), steps) == (EvaluationFiles(t, rs), Some(true))
  {
    var plan := EvaluationPlan(t, rs);
    var v1 := map[FinalSlot := Page(plan[0].1)];
    var v2 := v1[BundleSlot := Page(plan[1].1)];
    WriteFresh(t, map[], plan, steps);
    WriteFresh(t, v1, plan[1..], steps - 1);
    WriteFresh(t, v2, plan[1..][1..], steps - 2);
    assert plan[1..] == [plan[1], plan[2]] && plan[1..][1..] == [plan[2]] && plan[1..][1..][1..] == [];
    assert map[][FinalSlot := Page(plan[0].1)] == v1;
  }
}
