/** The staged battle and its result-matrix validator as pure functions over the cost ledger:
    round zero for every candidate, elimination, and two more repetitions for survivors. */
module Staging {
  import opened Prelude
  import opened Ledger
  import opened Sorting
  import opened Grouping

  datatype Suite = Sales | System

  datatype Profile = Original | CoreHard | BackgroundHard

  datatype Setup = Setup(ledger: Config, suite: Suite, profile: Profile, cases: seq<Name>, repetitions: nat) {
    predicate Hard() { profile != Original }

    ghost predicate Valid() {
      && ledger.Valid() && ledger.Listed() && NoDup(cases) && cases != []
      && (Hard() ==> repetitions == 3)
    }
  }

  datatype Job = Job(model: Name, caseId: Name, repetition: nat)

  datatype Status = Completed | Truncated | ProviderError

  /** The parts of a case result that elimination reads. */
  datatype Evidence = Evidence(
    status: Status, hardGate: bool, success: bool, jsonOk: bool, schemaOk: bool, criticalOk: bool,
    leaksPii: bool, correct: nat, total: nat)

  datatype Row = Row(job: Job, evidence: Evidence, cost: real)

  /** One provider request of a case run: what is sent and the cost reported for it, if any. */
  datatype Request = Request(payload: Payload, cost: Option<real>)

  /** Everything a provider makes happen in one case run. */
  datatype Script = Script(requests: seq<Request>, evidence: Evidence)

  datatype Fault = LedgerFault(error: Error) | CostOmitted | CapEnforced

  datatype CaseResult = CaseDone(cost: real) | CaseExhausted | CaseAborted(fault: Fault)

  datatype Progress = Progress(
    ledger: State, rows: seq<Row>, exhausted: set<Name>, stopped: seq<Job>, abort: Option<Fault>)

  // ----- job lists -----

  function ModelJobs(m: Name, cases: seq<Name>, reps: seq<nat>): seq<Job> {
    if cases == [] then []
    else MapSeq(r => Job(m, cases[0], r), reps) + ModelJobs(m, cases[1..], reps)
  }

  /** The random order of a stage's jobs, of one model or of all: any rearrangement of them. */
  type Shuffle = (nat, Option<Name>, seq<Job>) -> seq<Job>

  ghost predicate Rearranges(sh: Shuffle) {
    forall stage, m, js :: multiset(sh(stage, m, js)) == multiset(js)
  }

  function JobsFor(ms: seq<Name>, cases: seq<Name>, reps: seq<nat>, stage: nat, sh: Shuffle): seq<Job> {
    if ms == [] then []
    else sh(stage, Some(ms[0]), ModelJobs(ms[0], cases, reps)) + JobsFor(ms[1..], cases, reps, stage, sh)
  }

  function CaseJobs(ms: seq<Name>, caseId: Name, reps: seq<nat>): seq<Job> {
    if reps == [] then []
    else MapSeq(m => Job(m, caseId, reps[0]), ms) + CaseJobs(ms, caseId, reps[1..])
  }

  /** All jobs case by case, to be rearranged as one list. */
  function FlatJobs(ms: seq<Name>, cases: seq<Name>, reps: seq<nat>): seq<Job> {
    if cases == [] then [] else CaseJobs(ms, cases[0], reps) + FlatJobs(ms, cases[1..], reps)
  }

  function EstimateOf(c: Config, m: Name): real { if m in c.estimates then c.estimates[m] else 0.0 }

  function ByCost(c: Config): (Name, Name) -> bool {
    (a, b) => EstimateOf(c, a) < EstimateOf(c, b) || (EstimateOf(c, a) == EstimateOf(c, b) && a <= b)
  }

  function UpTo(n: nat): (r: seq<nat>)
    ensures |r| == n && forall i :: 0 <= i < n ==> r[i] == i + 1
  {
    if n == 0 then [] else UpTo(n - 1) + [n]
  }

  function RoundZeroJobs(su: Setup, sh: Shuffle): seq<Job> {
    JobsFor(Sort(su.ledger.models, ByCost(su.ledger)), su.cases, UpTo(if su.Hard() then 1 else su.repetitions), 0, sh)
  }

  // ----- elimination -----

  const ROW_MODEL: Row -> Name := (r: Row) => r.job.model

  function OfModel(m: Name): Row -> bool { KeyIs(ROW_MODEL, m) }

  const GRADED: Row -> bool := (r: Row) => r.evidence.status != Truncated

  function ScoredOf(m: Name): Row -> bool { (r: Row) => r.job.model == m && r.evidence.status != Truncated }

  function Scored(rows: seq<Row>, m: Name): seq<Row> { Filter(ScoredOf(m), rows) }

  function SumCorrect(rows: seq<Row>): nat {
    if rows == [] then 0 else rows[0].evidence.correct + SumCorrect(rows[1..])
  }

  function SumTotal(rows: seq<Row>): nat {
    if rows == [] then 0 else rows[0].evidence.total + SumTotal(rows[1..])
  }

  predicate RowPasses(suite: Suite, e: Evidence) {
    match suite
    case Sales => e.status == Completed && e.hardGate
    case System =>
      e.status == Completed && e.success && e.jsonOk && e.schemaOk && e.criticalOk && !e.leaksPii
  }

  /** Whether a candidate's scored rows carry it past round zero: there is one, and all pass. */
  predicate RowsAdvance(suite: Suite, scored: seq<Row>) {
    && scored != []
    && (forall i :: 0 <= i < |scored| ==> RowPasses(suite, scored[i].evidence))
    && (suite == System ==>
          SumTotal(scored) > 0 && SumCorrect(scored) as real / SumTotal(scored) as real >= 0.95)
  }

  predicate Advances(suite: Suite, rows: seq<Row>, m: Name) { RowsAdvance(suite, Scored(rows, m)) }

  function Advancing(suite: Suite, rows: seq<Row>): Name -> bool { m => Advances(suite, rows, m) }

  function ModelsOf(rows: seq<Row>): seq<Name> { KeysOf(ROW_MODEL, rows) }

  const BY_NAME: (Name, Name) -> bool := (a: Name, b: Name) => a <= b

  function Survivors(suite: Suite, rows: seq<Row>): seq<Name> {
    Sort(Filter(Advancing(suite, rows), ModelsOf(rows)), BY_NAME)
  }

  // ----- differentiating cases -----

  function Score(e: Evidence): real {
    if e.total == 0 then 0.0 else e.correct as real / e.total as real
  }

  function Scores(rows: seq<Row>, caseId: Name): seq<real> {
    MapSeq((r: Row) => Score(r.evidence), Filter((r: Row) => r.job.caseId == caseId, rows))
  }

  function Largest(s: seq<real>): real {
    if |s| == 0 then 0.0 else if |s| == 1 then s[0] else Max(s[0], Largest(s[1..]))
  }

  function Smallest(s: seq<real>): real {
    if |s| == 0 then 0.0 else if |s| == 1 then s[0] else Min(s[0], Smallest(s[1..]))
  }

  function Spread(rows: seq<Row>, caseId: Name): real {
    Largest(Scores(rows, caseId)) - Smallest(Scores(rows, caseId))
  }

  function WiderFirst(rows: seq<Row>): (Name, Name) -> bool {
    (a, b) => Spread(rows, a) > Spread(rows, b) || (Spread(rows, a) == Spread(rows, b) && a <= b)
  }

  const ROW_CASE: Row -> Name := (r: Row) => r.job.caseId

  function Differentiating(rows: seq<Row>, limit: nat): seq<Name> {
    var ranked := Sort(KeysOf(ROW_CASE, rows), WiderFirst(rows));
    ranked[..if limit <= |ranked| then limit else |ranked|]
  }

  function RepeatedCases(su: Setup, rows: seq<Row>): seq<Name> {
    if su.profile == BackgroundHard && su.suite == System then
      var chosen := Differentiating(rows, 3);
      Filter(c => c in chosen, su.cases)
    else su.cases
  }

  function SurvivorJobs(su: Setup, rows: seq<Row>, sh: Shuffle): seq<Job> {
    JobsFor(Sort(Survivors(su.suite, rows), ByCost(su.ledger)), RepeatedCases(su, rows), [2, 3], 1, sh)
  }

  /** The survivor stage when nothing is known about costs: one common random order. */
  function UncostedSurvivorJobs(su: Setup, rows: seq<Row>, sh: Shuffle): seq<Job> {
    sh(1, None, FlatJobs(Survivors(su.suite, rows), RepeatedCases(su, rows), [2, 3]))
  }

  // ----- running jobs -----

  /** A case run: its requests one after another, until one is refused or not paid. */
  function RunRequests(c: Config, s: State, m: Name, reqs: seq<Request>, spent: real): (r: (State, CaseResult))
    requires Keyed(c, s)
    ensures Keyed(c, r.0)
    decreases |reqs|, 2
  {
    if reqs == [] then (s, CaseDone(spent)) else ReserveNext(c, s, m, reqs, spent)
  }

  /** Before the next request is sent: its worst case is reserved, or the case ends. */
  function ReserveNext(c: Config, s: State, m: Name, reqs: seq<Request>, spent: real): (r: (State, CaseResult))
    requires Keyed(c, s) && reqs != []
    ensures Keyed(c, r.0)
    decreases |reqs|, 1
  {
    var (s1, out) := DoReserve(c, s, m, reqs[0].payload);
    if out.Exhausted? then (s1, CaseExhausted)
    else if out.Refused? then (s1, CaseAborted(LedgerFault(out.error)))
    else SettleNext(c, s1, m, reqs, spent, out.worst)
  }

  /** After it was answered: the cost that came back is settled, if there is one. */
  function SettleNext(c: Config, s: State, m: Name, reqs: seq<Request>, spent: real, worst: real)
    : (r: (State, CaseResult))
    requires Keyed(c, s) && reqs != []
    ensures Keyed(c, r.0)
    decreases |reqs|, 0
  {
    if reqs[0].cost.None? then (s, CaseAborted(CostOmitted))
    else
      var (s1, out) := DoReconcile(c, s, m, worst, reqs[0].cost.value);
      if out.Refused? then (s1, CaseAborted(LedgerFault(out.error)))
      else RunRequests(c, s1, m, reqs[1..], spent + reqs[0].cost.value)
  }

  function RowSpend(rows: seq<Row>, m: Name): real {
    if rows == [] then 0.0
    else RowSpend(rows[..|rows| - 1], m)
         + (if rows[|rows| - 1].job.model == m then rows[|rows| - 1].cost else 0.0)
  }

  predicate WithinCaps(c: Config, rows: seq<Row>) {
    forall m :: m in c.caps ==> RowSpend(rows, m) <= c.caps[m] + c.eps
  }

  /** Finishes `m`, aborting the battle if the ledger refuses. */
  function FinishModel(c: Config, p: Progress, m: Name): (q: Progress)
    requires Keyed(c, p.ledger)
    ensures Keyed(c, q.ledger)
  {
    var (s, out) := DoFinish(c, p.ledger, m);
    if out.Refused? then p.(ledger := s, abort := Some(LedgerFault(out.error))) else p.(ledger := s)
  }

  /** What the battle does with the outcome of a case run: abort, record the exhaustion and
      finish the candidate, or keep the row and check the caps again. */
  function Conclude(su: Setup, p: Progress, job: Job, evidence: Evidence, s: State, r: CaseResult, finishAfter: bool)
    : (q: Progress)
    requires Keyed(su.ledger, s)
    ensures Keyed(su.ledger, q.ledger)
  {
    match r
    case CaseAborted(fault) => p.(ledger := s, abort := Some(fault))
    case CaseExhausted =>
      FinishModel(su.ledger,
                  p.(ledger := s, exhausted := p.exhausted + {job.model}, stopped := p.stopped + [job]),
                  job.model)
    case CaseDone(cost) =>
      var q := p.(ledger := s, rows := p.rows + [Row(job, evidence, cost)]);
      if !WithinCaps(su.ledger, q.rows) then q.(abort := Some(CapEnforced))
      else if finishAfter then FinishModel(su.ledger, q, job.model)
      else q
  }

  function RunJob(su: Setup, provider: Job -> Script, p: Progress, job: Job, finishAfter: bool): (q: Progress)
    requires Keyed(su.ledger, p.ledger)
    ensures Keyed(su.ledger, q.ledger)
  {
    if p.abort.Some? || job.model in p.exhausted then p
    else
      var r := RunRequests(su.ledger, p.ledger, job.model, provider(job).requests, 0.0);
      Conclude(su, p, job, provider(job).evidence, r.0, r.1, finishAfter)
  }

  /** Runs the jobs in order; when `finishing`, a candidate is finished after the last job of
      its block. */
  function RunJobs(su: Setup, provider: Job -> Script, p: Progress, jobs: seq<Job>, finishing: bool): (q: Progress)
    requires Keyed(su.ledger, p.ledger)
    ensures Keyed(su.ledger, q.ledger)
    decreases |jobs|
  {
    if jobs == [] then p
    else
      var last := |jobs| == 1 || jobs[1].model != jobs[0].model;
      RunJobs(su, provider, RunJob(su, provider, p, jobs[0], finishing && last), jobs[1..], finishing)
  }

  function FinishAll(c: Config, p: Progress, ms: seq<Name>): (q: Progress)
    requires Keyed(c, p.ledger)
    ensures Keyed(c, q.ledger)
    decreases |ms|
  {
    if ms == [] || p.abort.Some? then p else FinishAll(c, FinishModel(c, p, ms[0]), ms[1..])
  }

  function Start(c: Config): (p: Progress)
    requires c.Valid()
    ensures Keyed(c, p.ledger)
  {
    Progress(Initial(c), [], {}, [], None)
  }

  predicate HasJob(jobs: seq<Job>, m: Name) {
    exists i :: 0 <= i < |jobs| && jobs[i].model == m
  }

  function Eliminated(jobs: seq<Job>, p: Progress): Name -> bool { m => !HasJob(jobs, m) && m !in p.exhausted }

  function StillActive(p: Progress): Name -> bool { m => m !in p.exhausted }

  function Battle(su: Setup, sh: Shuffle, provider: Job -> Script): (q: Progress)
    requires su.Valid()
    ensures Keyed(su.ledger, q.ledger)
  {
    var p := RunJobs(su, provider, Start(su.ledger), RoundZeroJobs(su, sh), false);
    if p.abort.Some? then p
    else if su.Hard() then
      var jobs := SurvivorJobs(su, p.rows, sh);
      RunJobs(su, provider, FinishAll(su.ledger, p, Filter(Eliminated(jobs, p), su.ledger.models)), jobs, true)
    else FinishAll(su.ledger, p, Filter(StillActive(p), su.ledger.models))
  }

  // ----- the validator -----

  function Keys(rows: seq<Row>): seq<Job> { MapSeq((r: Row) => r.job, rows) }

  ghost predicate IsRoundZero(su: Setup, j: Job) {
    j.model in su.ledger.models && j.caseId in su.cases && j.repetition == 1
  }

  ghost predicate IsExpected(su: Setup, firstRows: seq<Row>, j: Job) {
    IsRoundZero(su, j)
    || (j.model in Survivors(su.suite, firstRows) && j.caseId in RepeatedCases(su, firstRows)
        && (j.repetition == 2 || j.repetition == 3))
  }

  function FirstRepetition(rows: seq<Row>): seq<Row> {
    Filter((r: Row) => r.job.repetition == 1, rows)
  }

  /** The rows are exactly the staged matrix recomputed from the first repetitions. */
  ghost predicate ValidMatrix(su: Setup, rows: seq<Row>) {
    && NoDup(Keys(rows))
    && (forall j :: IsRoundZero(su, j) ==> j in Keys(rows))
    && (forall j :: j in Keys(rows) <==> IsExpected(su, FirstRepetition(rows), j))
  }
}
