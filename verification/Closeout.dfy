/** Closing a run: five create-once files computed from the accepted records, then four journal
    phases. A process may die between any two durable steps and the command be issued again. */
module Closeout {
  import opened Prelude
  import opened Acceptance

  datatype Entry = Entry(defect: nat, execution: Name, open: bool, attempt: nat)

  /** What a defect ledger and its receipt are bound to. */
  datatype Binding = Binding(registry: nat, run: nat, auth: nat, sealedPlan: nat, fold: Digest, bundle: Digest)

  /** The values written while closing. */
  datatype Page =
    | FinalActivity(run: nat, auth: nat, sealedPlan: nat, fold: Digest, records: seq<Digest>, issuedAt: Time)
    | Bundle(run: nat, auth: nat, fold: Digest, sources: seq<Digest>, criteria: nat)
    | EvaluationReceipt(run: nat, auth: nat, bundle: Digest, final: Digest)
    | Ledger(binding: Binding, entries: seq<Entry>)
    | LedgerReceipt(binding: Binding, tracked: Digest)

  /** A file: the canonical encoding of a page, or other bytes. */
  datatype File = Page(page: Page) | Foreign(id: nat)

  datatype Slot = FinalSlot | BundleSlot | ReceiptSlot | LedgerSlot | LedgerReceiptSlot

  type Vault = map<Slot, File>

  /** The run's context, the digest of its closing files, how foreign bytes parse, and what the
      evaluation reads in a record: its criteria rows, whether it failed, and whether a ledger
      entry is backed by the evidence of the failed record it names. */
  datatype Terms = Terms(
    x: Ctx, seal: File -> Digest, parse: nat -> Option<Page>, criteria: seq<Record> -> nat,
    failed: Artifact -> bool, backed: (Entry, seq<Record>) -> bool)
  {
    ghost predicate Unseals(trace: Digest -> File) { forall f :: trace(seal(f)) == f }

    ghost predicate Injective() { exists trace :: Unseals(trace) }

    function Parse(f: File): Option<Page> {
      match f
      case Page(page) => Some(page)
      case Foreign(id) => parse(id)
    }
  }

  datatype Close = Close(final: Page, bundle: Page, receipt: Page, ledger: Page, ledgerReceipt: Page)

  datatype Outcome = Done(close: Close) | Rejected | Interrupted

  // ----- what the records determine -----

  function Sources(rs: seq<Record>): seq<Digest> { MapSeq((r: Record) => r.claim.artifact.sourceSha, rs) }

  function Fold(rs: seq<Record>): Digest
    requires rs != []
  {
    rs[|rs| - 1].claim.fold
  }

  function FinalPage(t: Terms, rs: seq<Record>): Page
    requires rs != []
  {
    FinalActivity(t.x.run, t.x.auth, t.x.sealedPlan, Fold(rs), MapSeq((r: Record) => t.x.Digest(RecordDoc(r)), rs),
                  rs[|rs| - 1].claim.acceptedAt)
  }

  function BundlePage(t: Terms, rs: seq<Record>): Page
    requires rs != []
  {
    Bundle(t.x.run, t.x.auth, Fold(rs), Sources(rs), t.criteria(rs))
  }

  function ReceiptPage(t: Terms, rs: seq<Record>): Page
    requires rs != []
  {
    EvaluationReceipt(t.x.run, t.x.auth, t.seal(Page(BundlePage(t, rs))), t.seal(Page(FinalPage(t, rs))))
  }

  function BindingOf(t: Terms, rs: seq<Record>): Binding
    requires rs != []
  {
    Binding(t.x.registry, t.x.run, t.x.auth, t.x.sealedPlan, Fold(rs), t.seal(Page(BundlePage(t, rs))))
  }

  function EmptyLedger(t: Terms, rs: seq<Record>): Page
    requires rs != []
  {
    Ledger(BindingOf(t, rs), [])
  }

  function EmptyLedgerReceipt(t: Terms, rs: seq<Record>): Page
    requires rs != []
  {
    LedgerReceipt(BindingOf(t, rs), t.seal(Page(EmptyLedger(t, rs))))
  }

  function FailedExecutions(t: Terms, rs: seq<Record>): set<Name> {
    set r | r in rs && t.failed(r.claim.artifact) :: r.claim.artifact.execution
  }

  // ----- writing -----

  /** Writes a file exclusively, or validates that it holds the very same bytes. */
  function Write(t: Terms, v: Vault, slot: Slot, page: Page): Option<Vault> {
    if slot !in v then Some(v[slot := Page(page)])
    else if t.seal(v[slot]) == t.seal(Page(page)) then Some(v)
    else None
  }

  /** Writes the planned files in order, dying before write number `steps`. */
  function WriteAll(t: Terms, v: Vault, plan: seq<(Slot, Page)>, steps: nat): (Vault, Option<bool>)
    decreases |plan|
  {
    if plan == [] then (v, Some(true))
    else if steps == 0 then (v, None)
    else
      var w := Write(t, v, plan[0].0, plan[0].1);
      if w.None? then (v, Some(false)) else WriteAll(t, w.value, plan[1..], steps - 1)
  }

  function EvaluationPlan(t: Terms, rs: seq<Record>): seq<(Slot, Page)>
    requires rs != []
  {
    [(FinalSlot, FinalPage(t, rs)), (BundleSlot, BundlePage(t, rs)), (ReceiptSlot, ReceiptPage(t, rs))]
  }

  function LedgerPlan(t: Terms, rs: seq<Record>): seq<(Slot, Page)>
    requires rs != []
  {
    [(LedgerSlot, EmptyLedger(t, rs)), (LedgerReceiptSlot, EmptyLedgerReceipt(t, rs))]
  }

  /** A ledger with one open, evidence-backed entry per failed execution, bound to this
      evaluation, with a receipt for exactly its bytes. */
  predicate LedgerPairOk(t: Terms, rs: seq<Record>, ledger: File, receipt: File)
    requires rs != []
  {
    var l, r := t.Parse(ledger), t.Parse(receipt);
    && l.Some? && l.value.Ledger? && r.Some? && r.value.LedgerReceipt?
    && l.value.binding == BindingOf(t, rs) && r.value.binding == BindingOf(t, rs)
    && r.value.tracked == t.seal(ledger)
    && var entries := l.value.entries;
       && (forall i, j :: 0 <= i < j < |entries| ==> entries[i].defect != entries[j].defect)
       && (set e | e in entries :: e.execution) == FailedExecutions(t, rs)
       && forall i :: 0 <= i < |entries| ==> entries[i].open && t.backed(entries[i], rs)
  }

  function CloseOf(t: Terms, rs: seq<Record>, ledger: Page, receipt: Page): Close
    requires rs != []
  {
    Close(FinalPage(t, rs), BundlePage(t, rs), ReceiptPage(t, rs), ledger, receipt)
  }

  /** Loads the committed ledger pair, or commits an empty one when nothing failed. */
  function LoadOrCommitLedger(t: Terms, rs: seq<Record>, v: Vault, steps: nat): (Vault, Outcome)
    requires rs != []
  {
    if (LedgerSlot in v) != (LedgerReceiptSlot in v) then (v, Rejected)
    else if LedgerSlot !in v then
      if FailedExecutions(t, rs) != {} then (v, Rejected)
      else
        var w := WriteAll(t, v, LedgerPlan(t, rs), steps);
        (w.0, if w.1.None? then Interrupted
              else if w.1.value then Done(CloseOf(t, rs, EmptyLedger(t, rs), EmptyLedgerReceipt(t, rs)))
              else Rejected)
    else if LedgerPairOk(t, rs, v[LedgerSlot], v[LedgerReceiptSlot]) then
      (v, Done(CloseOf(t, rs, t.Parse(v[LedgerSlot]).value, t.Parse(v[LedgerReceiptSlot]).value)))
    else (v, Rejected)
  }

  /** All executions accepted, each with a source of its own. */
  predicate Closable(t: Terms, rs: seq<Record>) {
    && |rs| == t.x.Size() && rs != []
    && forall i, j :: 0 <= i < j < |rs| ==> Sources(rs)[i] != Sources(rs)[j]
  }

  /** Finalizes the run, dying before write number `steps`. */
  function Finalize(t: Terms, rs: seq<Record>, v: Vault, steps: nat): (Vault, Outcome) {
    if !Closable(t, rs) then (v, Rejected)
    else
      var w := WriteAll(t, v, EvaluationPlan(t, rs), steps);
      if w.1.None? then (w.0, Interrupted)
      else if !w.1.value then (w.0, Rejected)
      else LoadOrCommitLedger(t, rs, w.0, if steps < 3 then 0 else steps - 3)
  }

  // ----- the phases -----

  datatype Phase = Earlier | Executing | FinalTurnAnchored | FinalReadbackSealed | Evaluated | AttemptCommitted

  function Rank(p: Phase): nat {
    match p
    case Earlier => 0
    case Executing => 1
    case FinalTurnAnchored => 2
    case FinalReadbackSealed => 3
    case Evaluated => 4
    case AttemptCommitted => 5
  }

  /** The files and the journal's phase with the digests anchored on the way. */
  datatype State = State(
    vault: Vault, phase: Phase, finalEvent: Digest, finalAt: Time, evaluation: Digest, chain: Digest)

  /** What the world does during one invocation: whether some action is reserved or unknown,
      whether the final readback can be sealed, and when the process dies. */
  datatype World = World(blocked: bool, readback: bool, steps: nat)

  datatype Verdict = Reached(phase: Phase) | Failed | Died

  function Anchor(t: Terms, rs: seq<Record>, s: State, blocked: bool): Option<State>
    requires rs != []
  {
    var event, at := t.seal(Page(FinalPage(t, rs))), rs[|rs| - 1].claim.acceptedAt;
    if s.phase == Executing then
      if blocked then None else Some(s.(phase := FinalTurnAnchored, finalEvent := event, finalAt := at))
    else if s.phase == FinalTurnAnchored && (s.finalEvent != event || s.finalAt != at) then None
    else Some(s)
  }

  function SealReadback(s: State, readback: bool): Option<State> {
    if s.phase != FinalTurnAnchored then Some(s)
    else if readback then Some(s.(phase := FinalReadbackSealed)) else None
  }

  function MarkEvaluated(t: Terms, rs: seq<Record>, s: State): Option<State>
    requires rs != []
  {
    var bundle := t.seal(Page(BundlePage(t, rs)));
    if s.phase == FinalReadbackSealed then Some(s.(phase := Evaluated, evaluation := bundle))
    else if s.phase == Evaluated && s.evaluation != bundle then None
    else Some(s)
  }

  function CommitPhase(t: Terms, rs: seq<Record>, s: State): Option<State>
    requires rs != []
  {
    if s.phase == Evaluated then Some(s.(phase := AttemptCommitted, chain := Fold(rs)))
    else if s.phase == AttemptCommitted && s.chain != Fold(rs) then None
    else Some(s)
  }

  /** The journal transitions after a successful finalize, dying before number `steps`. */
  function Advance(t: Terms, rs: seq<Record>, s: State, w: World, steps: nat): (State, Verdict)
    requires rs != []
  {
    if steps == 0 then (s, Died)
    else
      var s1 := Anchor(t, rs, s, w.blocked);
      if s1.None? then (s, Failed)
      else if steps == 1 then (s1.value, Died)
      else
        var s2 := SealReadback(s1.value, w.readback);
        if s2.None? then (s1.value, Failed)
        else if steps == 2 then (s2.value, Died)
        else FromEvaluation(t, rs, s2.value, steps)
  }

  /** The last two transitions, `steps` counted from the first of all four. */
  function FromEvaluation(t: Terms, rs: seq<Record>, s: State, steps: nat): (State, Verdict)
    requires rs != [] && steps >= 2
  {
    var s3 := MarkEvaluated(t, rs, s);
    if s3.None? then (s, Failed)
    else if steps <= 3 then (s3.value, Died)
    else
      var s4 := CommitPhase(t, rs, s3.value);
      if s4.None? then (s3.value, Failed) else (s4.value, Reached(s4.value.phase))
  }

  /** One `close-execution` command: finalize, then the phases. */
  function CloseExecution(t: Terms, rs: seq<Record>, s: State, w: World): (State, Verdict) {
    var f := Finalize(t, rs, s.vault, w.steps);
    var s1 := s.(vault := f.0);
    match f.1
    case Rejected => (s1, Failed)
    case Interrupted => (s1, Died)
    case Done(_) => Advance(t, rs, s1, w, if w.steps < 5 then 0 else w.steps - 5)
  }

  function Retries(t: Terms, rs: seq<Record>, s: State, ws: seq<World>): State
    decreases |ws|
  {
    if ws == [] then s else Retries(t, rs, CloseExecution(t, rs, s, ws[0]).0, ws[1..])
  }
}
