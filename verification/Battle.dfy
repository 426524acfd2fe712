/** The battle as the program runs it: loops over jobs, rows and candidates that update local
    collections and drive a cost budget object, each proved to compute the staged battle. */
module Battle {
  import opened Prelude
  import opened Ledger
  import opened Budget
  import opened Sorting
  import opened Grouping
  import opened Staging
  import opened StagingRuns

  // ----- elimination -----

  /** Candidate by candidate over its rows that are not truncated. */
  method RoundZeroSurvivors(suite: Suite, rows: seq<Row>) returns (survivors: seq<Name>)
    ensures survivors == Survivors(suite, rows)
  {
    var order, byModel := GroupBy(ROW_MODEL, rows);
    survivors := [];
    for k := 0 to |order|
      invariant survivors == Filter(Advancing(suite, rows), order[..k])
    {
      var m := order[k];
      assert m in order;
      SurvivorStep(suite, rows, order, k);
      if RowsAdvance(suite, Filter(GRADED, byModel[m])) {
        survivors := survivors + [m];
      }
    }
    assert order[..|order|] == order;
    survivors := Sort(survivors, BY_NAME);
  }

  lemma SurvivorStep(suite: Suite, rows: seq<Row>, order: seq<Name>, k: nat)
    requires k < |order|
    ensures Filter(Advancing(suite, rows), order[..k + 1])
         == Filter(Advancing(suite, rows), order[..k])
            + if RowsAdvance(suite, Filter(GRADED, Filter(OfModel(order[k]), rows))) then [order[k]] else []
  {
    var m, kept := order[k], Advancing(suite, rows);
    ScoredTwice(rows, m);
    FilterAppend(kept, order[..k], [m]);
    assert order[..k + 1] == order[..k] + [m];
    assert Filter(kept, [m]) == if kept(m) then [m] else [] by {
      assert [m][1..] == [];
    }
  }

  lemma ScoredTwice(rows: seq<Row>, m: Name)
    ensures Filter(GRADED, Filter(OfModel(m), rows)) == Scored(rows, m)
  {
    FilterTwice(OfModel(m), GRADED, ScoredOf(m), rows);
  }

  // ----- job lists -----

  method JobBlocks(ms: seq<Name>, cases: seq<Name>, reps: seq<nat>, stage: nat, sh: Shuffle) returns (jobs: seq<Job>)
    ensures jobs == JobsFor(ms, cases, reps, stage, sh)
  {
    jobs := [];
    var i := 0;
    while i < |ms|
      invariant 0 <= i <= |ms|
      invariant jobs + JobsFor(ms[i..], cases, reps, stage, sh) == JobsFor(ms, cases, reps, stage, sh)
    {
      var block := sh(stage, Some(ms[i]), ModelJobs(ms[i], cases, reps));
      assert (jobs + block) + JobsFor(ms[i + 1..], cases, reps, stage, sh)
          == jobs + (block + JobsFor(ms[i + 1..], cases, reps, stage, sh));
      jobs := jobs + block;
      i := i + 1;
    }
  }

  /** The survivors' jobs, in blocks by estimated cost where there are estimates. */
  method BuildSurvivorJobs(su: Setup, rows: seq<Row>, sh: Shuffle, costed: bool) returns (jobs: seq<Job>)
    ensures jobs == if costed then SurvivorJobs(su, rows, sh) else UncostedSurvivorJobs(su, rows, sh)
  {
    var survivors := RoundZeroSurvivors(su.suite, rows);
    if !costed { return sh(1, None, FlatJobs(survivors, RepeatedCases(su, rows), [2, 3])); }
    jobs := JobBlocks(Sort(survivors, ByCost(su.ledger)), RepeatedCases(su, rows), [2, 3], 1, sh);
  }

  // ----- running -----

  /** The provider requests of one case, each reserved and then settled. */
  method RunCase(budget: RequestCostBudget, m: Name, reqs: seq<Request>) returns (r: CaseResult)
    requires budget.Aligned()
    modifies budget
    ensures budget.Aligned()
    ensures (budget.View(), r) == RunRequests(budget.c, old(budget.View()), m, reqs, 0.0)
  {
    var spent, rest := 0.0, reqs;
    while rest != []
      invariant budget.Aligned()
      invariant RunRequests(budget.c, budget.View(), m, rest, spent)
             == RunRequests(budget.c, old(budget.View()), m, reqs, 0.0)
      decreases |rest|
    {
      var ended := AskProvider(budget, m, rest, spent);
      if ended.Some? { return ended.value; }
      spent, rest := spent + rest[0].cost.value, rest[1..];
    }
    return CaseDone(spent);
  }

  /** The first of the remaining requests: reserve its worst case, then settle the answer. */
  method AskProvider(budget: RequestCostBudget, m: Name, reqs: seq<Request>, spent: real)
    returns (ended: Option<CaseResult>)
    requires budget.Aligned() && reqs != []
    modifies budget
    ensures budget.Aligned() && (ended.None? ==> reqs[0].cost.Some?)
    ensures RunRequests(budget.c, old(budget.View()), m, reqs, spent)
         == if ended.Some? then (budget.View(), ended.value)
            else RunRequests(budget.c, budget.View(), m, reqs[1..], spent + reqs[0].cost.value)
  {
    ghost var s := budget.View();
    var out := budget.ReserveRequest(m, reqs[0].payload);
    ReservedFirst(budget.c, s, m, reqs, spent, budget.View(), out);
    if out.Exhausted? { return Some(CaseExhausted); }
    if out.Refused? { return Some(CaseAborted(LedgerFault(out.error))); }
    ended := SettleAnswer(budget, m, reqs, spent, out.worst);
  }

  method SettleAnswer(budget: RequestCostBudget, m: Name, reqs: seq<Request>, spent: real, worst: real)
    returns (ended: Option<CaseResult>)
    requires budget.Aligned() && reqs != []
    modifies budget
    ensures budget.Aligned() && (ended.None? ==> reqs[0].cost.Some?)
    ensures SettleNext(budget.c, old(budget.View()), m, reqs, spent, worst)
         == if ended.Some? then (budget.View(), ended.value)
            else RunRequests(budget.c, budget.View(), m, reqs[1..], spent + reqs[0].cost.value)
  {
    if reqs[0].cost.None? { return Some(CaseAborted(CostOmitted)); }
    ghost var s := budget.View();
    var out := budget.ReconcileRequest(m, worst, reqs[0].cost.value);
    SettledFirst(budget.c, s, m, reqs, spent, worst, budget.View(), out);
    return if out.Refused? then Some(CaseAborted(LedgerFault(out.error))) else None;
  }

  /** Adds up the rows candidate by candidate and compares with the caps. */
  method EnforceModelCostCaps(c: Config, rows: seq<Row>) returns (ok: bool)
    requires c.Listed()
    ensures ok <==> WithinCaps(c, rows)
  {
    var actual: map<Name, real> := map[];
    for i := 0 to |rows|
      invariant forall m :: RowSpend(rows[..i], m) == if m in actual then actual[m] else 0.0
    {
      var m := rows[i].job.model;
      assert rows[..i + 1][..i] == rows[..i];
      actual := actual[m := (if m in actual then actual[m] else 0.0) + rows[i].cost];
    }
    assert rows[..|rows|] == rows;
    for k := 0 to |c.models|
      invariant forall j :: 0 <= j < k ==>
                  c.models[j] in c.caps && RowSpend(rows, c.models[j]) <= c.caps[c.models[j]] + c.eps
    {
      var m := c.models[k];
      assert m in c.models;
      if (if m in actual then actual[m] else 0.0) > c.caps[m] + c.eps { return false; }
    }
    return true;
  }

  /** Finishes one candidate of a battle. */
  method Finish(budget: RequestCostBudget, p: Progress, m: Name) returns (q: Progress)
    requires budget.Aligned() && p.ledger == budget.View()
    modifies budget
    ensures budget.Aligned() && q.ledger == budget.View()
    ensures q == FinishModel(budget.c, p, m)
  {
    var out := budget.FinishCandidate(m);
    q := p.(ledger := budget.View(), abort := if out.Refused? then Some(LedgerFault(out.error)) else p.abort);
  }

  method RunOneJob(budget: RequestCostBudget, su: Setup, provider: Job -> Script, p: Progress, job: Job,
                   finishAfter: bool)
    returns (q: Progress)
    requires budget.Aligned() && budget.c == su.ledger && su.ledger.Listed() && p.ledger == budget.View()
    requires p.abort.None?
    modifies budget
    ensures budget.Aligned() && q.ledger == budget.View()
    ensures q == RunJob(su, provider, p, job, finishAfter)
  {
    if job.model in p.exhausted { return p; }
    var r := RunCase(budget, job.model, provider(job).requests);
    match r {
      case CaseAborted(fault) => return p.(ledger := budget.View(), abort := Some(fault));
      case CaseExhausted =>
        q := p.(ledger := budget.View(), exhausted := p.exhausted + {job.model}, stopped := p.stopped + [job]);
        q := Finish(budget, q, job.model);
      case CaseDone(cost) =>
        q := p.(ledger := budget.View(), rows := p.rows + [Row(job, provider(job).evidence, cost)]);
        var ok := EnforceModelCostCaps(su.ledger, q.rows);
        if !ok {
          q := q.(abort := Some(CapEnforced));
        } else if finishAfter {
          q := Finish(budget, q, job.model);
        }
    }
  }

  method RunStage(budget: RequestCostBudget, su: Setup, provider: Job -> Script, p: Progress, jobs: seq<Job>,
                  finishing: bool)
    returns (q: Progress)
    requires budget.Aligned() && budget.c == su.ledger && su.Valid() && p.ledger == budget.View()
    requires p.abort.None?
    modifies budget
    ensures budget.Aligned() && q.ledger == budget.View()
    ensures q == RunJobs(su, provider, p, jobs, finishing)
  {
    q := p;
    var i := 0;
    while i < |jobs|
      invariant 0 <= i <= |jobs| && budget.Aligned() && q.ledger == budget.View() && q.abort.None?
      invariant RunJobs(su, provider, q, jobs[i..], finishing) == RunJobs(su, provider, p, jobs, finishing)
    {
      assert jobs[i..][0] == jobs[i] && jobs[i..][1..] == jobs[i + 1..];
      var last := i + 1 == |jobs| || jobs[i + 1].model != jobs[i].model;
      q := RunOneJob(budget, su, provider, q, jobs[i], finishing && last);
      i := i + 1;
      if q.abort.Some? {
        AbortSticks(su, provider, q, jobs[i..], finishing);
        return;
      }
    }
  }

  method FinishEach(budget: RequestCostBudget, p: Progress, ms: seq<Name>) returns (q: Progress)
    requires budget.Aligned() && p.ledger == budget.View()
    modifies budget
    ensures budget.Aligned() && q.ledger == budget.View()
    ensures q == FinishAll(budget.c, p, ms)
  {
    q := p;
    var i := 0;
    while i < |ms| && q.abort.None?
      invariant 0 <= i <= |ms| && budget.Aligned() && q.ledger == budget.View()
      invariant FinishAll(budget.c, q, ms[i..]) == FinishAll(budget.c, p, ms)
    {
      assert ms[i..][0] == ms[i] && ms[i..][1..] == ms[i + 1..];
      q := Finish(budget, q, ms[i]);
      i := i + 1;
    }
  }

  /** One suite of a battle, on a fresh budget. */
  method RunBattle(su: Setup, sh: Shuffle, provider: Job -> Script) returns (q: Progress)
    requires su.Valid()
    ensures q == Staging.Battle(su, sh, provider)
  {
    var budget := new RequestCostBudget(su.ledger);
    var reps := UpTo(if su.Hard() then 1 else su.repetitions);
    var first := JobBlocks(Sort(su.ledger.models, ByCost(su.ledger)), su.cases, reps, 0, sh);
    q := RunStage(budget, su, provider, Progress(budget.View(), [], {}, [], None), first, false);
    if q.abort.Some? { return; }
    if su.Hard() {
      var jobs := BuildSurvivorJobs(su, q.rows, sh, true);
      q := FinishEach(budget, q, Filter(Eliminated(jobs, q), su.ledger.models));
      if q.abort.Some? { AbortSticks(su, provider, q, jobs, true); return; }
      q := RunStage(budget, su, provider, q, jobs, true);
    } else {
      q := FinishEach(budget, q, Filter(StillActive(q), su.ledger.models));
    }
  }
}
