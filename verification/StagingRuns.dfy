/** What running a list of jobs keeps: a quiet ledger of its own making, rows within the caps,
    and who is finished, for every provider behaviour. */
module StagingRuns {
  import opened Prelude
  import opened Ledger
  import opened LedgerLaws
  import opened Staging
  import opened StagingJobs

  /** The ledger got here by its own operations. */
  ghost predicate Reachable(c: Config, s: State)
    requires c.Valid()
  {
    exists ops :: Run(c, Initial(c), ops) == s
  }

  /** Nothing is reserved. */
  ghost predicate Quiet(s: State) {
    forall m :: m in s.accounts ==> s.accounts[m].pending == 0.0 && s.accounts[m].reservations == []
  }

  /** A finished candidate keeps no allowance. */
  ghost predicate Closed(s: State) {
    forall m :: m in s.finished ==> m in s.accounts && s.accounts[m].own == 0.0
  }

  /** Faults only the provider, or a malformed request, can cause. */
  ghost predicate ProviderFault(f: Fault) {
    f == CostOmitted || f == LedgerFault(NotFinite)
    || f == LedgerFault(CostExceedsReservation) || f == LedgerFault(CapExceededAfterResponse)
  }

  lemma StepReachable(c: Config, s: State, op: Op)
    requires c.Valid() && Keyed(c, s) && Reachable(c, s)
    ensures Reachable(c, Step(c, s, op).0)
  {
    var ops :| Run(c, Initial(c), ops) == s;
    RunOfRuns(c, Initial(c), ops, [op]);
    assert [op][1..] == [];
    assert Run(c, s, [op]) == Step(c, s, op).0;
  }

  lemma ReachableInv(c: Config, s: State) returns (k: nat)
    requires c.Valid() && Reachable(c, s)
    ensures Inv(c, s, k)
  {
    var ops :| Run(c, Initial(c), ops) == s;
    k := Settlements(c, Initial(c), ops);
    InitialInv(c);
    RunKeepsInv(c, Initial(c), 0, ops);
  }

  /** Only `m` has moved. */
  ghost predicate Frame(s: State, t: State, m: Name) {
    && t.finished == s.finished && t.accounts.Keys == s.accounts.Keys
    && forall x :: x in s.accounts && x != m ==> t.accounts[x] == s.accounts[x]
  }

  /** `m` may send requests and has none under way. */
  ghost predicate Idle(c: Config, s: State, m: Name) {
    && m in c.caps && m in s.accounts && m !in s.finished
    && s.accounts[m].pending == 0.0 && s.accounts[m].reservations == []
  }

  /** `m` is idle again after paying `spent` in all. */
  ghost predicate Served(c: Config, s: State, m: Name, t: State, spent: real) {
    m in s.accounts && Idle(c, t, m) && t.accounts[m].actual == s.accounts[m].actual + spent && 0.0 <= spent
  }

  /** A granted request is the only outstanding one, so its settlement finds it. */
  lemma AdmitThenReconcile(c: Config, s: State, m: Name, worst: real, cost: real)
    requires Keyed(c, s) && Idle(c, s, m) && 0.0 <= c.eps
    requires Admit(c, s, m, worst).1.Granted?
    ensures var (t, out) := DoReconcile(c, Admit(c, s, m, worst).0, m, worst, cost);
            if out.Settled? then Served(c, s, m, t, cost) else ProviderFault(LedgerFault(out.error))
  {
    var s1 := Admit(c, s, m, worst).0;
    var res := Reservation(worst, Min(worst, s.accounts[m].own), worst - Min(worst, s.accounts[m].own));
    assert s1.accounts[m].reservations == [res];
    assert Matches(res, worst, c.eps);
    assert Find(s1.accounts[m].reservations, worst, c.eps) == 0;
    assert Without([res], 0) == [];
  }

  /** What a case run of `m` that started idle in `s` with `spent` on its books leaves behind. */
  ghost predicate CaseOk(c: Config, s: State, m: Name, spent: real, t: State, r: CaseResult) {
    && (r.CaseAborted? ==> ProviderFault(r.fault))
    && (r.CaseDone? ==> Served(c, s, m, t, r.cost - spent))
    && (r.CaseExhausted? ==> m in s.accounts && Idle(c, t, m) && s.accounts[m].actual <= t.accounts[m].actual)
  }

  lemma PaidOn(c: Config, s: State, m: Name, spent: real, s': State, cost: real, t: State, r: CaseResult)
    requires Served(c, s, m, s', cost) && CaseOk(c, s', m, spent + cost, t, r)
    ensures CaseOk(c, s, m, spent, t, r)
  {
  }

  /** What the reservation of the first request makes of a case run. */
  lemma ReservedFirst(c: Config, s: State, m: Name, reqs: seq<Request>, spent: real, s1: State, out: Outcome)
    requires Keyed(c, s) && reqs != [] && Keyed(c, s1) && (s1, out) == DoReserve(c, s, m, reqs[0].payload)
    ensures RunRequests(c, s, m, reqs, spent)
         == if out.Exhausted? then (s1, CaseExhausted)
            else if out.Refused? then (s1, CaseAborted(LedgerFault(out.error)))
            else SettleNext(c, s1, m, reqs, spent, out.worst)
  {
  }

  /** What its settlement makes of it. */
  lemma SettledFirst(c: Config, s: State, m: Name, reqs: seq<Request>, spent: real, worst: real, s1: State,
                     out: Outcome)
    requires Keyed(c, s) && reqs != [] && reqs[0].cost.Some? && Keyed(c, s1)
    requires (s1, out) == DoReconcile(c, s, m, worst, reqs[0].cost.value)
    ensures SettleNext(c, s, m, reqs, spent, worst)
         == if out.Refused? then (s1, CaseAborted(LedgerFault(out.error)))
            else RunRequests(c, s1, m, reqs[1..], spent + reqs[0].cost.value)
  {
  }

  lemma ReserveIsAdmit(c: Config, s: State, m: Name, p: Payload)
    requires Keyed(c, s) && Idle(c, s, m)
    ensures var (s1, out) := DoReserve(c, s, m, p);
            && (out.Refused? ==> out.error == NotFinite) && (out.Exhausted? ==> s1 == s)
            && (out.Granted? ==> (s1, out) == Admit(c, s, m, out.worst))
  {
  }

  /** The first request either ends the case run, or is paid and leaves the rest of it. */
  lemma FirstRequest(c: Config, s: State, m: Name, reqs: seq<Request>, spent: real)
    returns (paid: bool, s': State, cost: real)
    requires Keyed(c, s) && Idle(c, s, m) && 0.0 <= c.eps && reqs != []
    ensures var r := RunRequests(c, s, m, reqs, spent);
            if !paid then CaseOk(c, s, m, spent, r.0, r.1)
            else Keyed(c, s') && Served(c, s, m, s', cost) && r == RunRequests(c, s', m, reqs[1..], spent + cost)
  {
    var (s1, out) := DoReserve(c, s, m, reqs[0].payload);
    ReservedFirst(c, s, m, reqs, spent, s1, out);
    ReserveIsAdmit(c, s, m, reqs[0].payload);
    paid, s', cost := false, s, 0.0;
    if out.Granted? {
      if reqs[0].cost.Some? {
        cost := reqs[0].cost.value;
        AdmitThenReconcile(c, s, m, out.worst, cost);
        var (s2, out2) := DoReconcile(c, s1, m, out.worst, cost);
        SettledFirst(c, s1, m, reqs, spent, out.worst, s2, out2);
        paid, s' := out2.Settled?, s2;
      } else {
        assert SettleNext(c, s1, m, reqs, spent, out.worst) == (s1, CaseAborted(CostOmitted));
      }
    }
  }

  lemma {:induction false} RunRequestsSettles(c: Config, s: State, m: Name, reqs: seq<Request>, spent: real)
    requires Keyed(c, s) && Idle(c, s, m) && 0.0 <= c.eps
    ensures var r := RunRequests(c, s, m, reqs, spent); CaseOk(c, s, m, spent, r.0, r.1)
    decreases |reqs|
  {
    if reqs != [] {
      var paid, s', cost := FirstRequest(c, s, m, reqs, spent);
      if paid {
        RunRequestsSettles(c, s', m, reqs[1..], spent + cost);
        var r := RunRequests(c, s', m, reqs[1..], spent + cost);
        PaidOn(c, s, m, spent, s', cost, r.0, r.1);
      }
    }
  }

  /** The operations of `m` behind a case run: reservations and settlements, never a finish. */
  ghost predicate Requesting(ops: seq<Op>, m: Name) {
    forall i :: 0 <= i < |ops| ==> ops[i].model == m && !ops[i].Finish?
  }

  lemma {:induction false} RunRequestsIsRun(c: Config, s: State, m: Name, reqs: seq<Request>, spent: real)
    returns (ops: seq<Op>)
    requires Keyed(c, s)
    ensures Requesting(ops, m) && Run(c, s, ops) == RunRequests(c, s, m, reqs, spent).0
    decreases |reqs|
  {
    ops := [];
    if reqs != [] {
      var goesOn, first, s', spent' := FirstOps(c, s, m, reqs, spent);
      ops := first;
      if goesOn {
        var rest := RunRequestsIsRun(c, s', m, reqs[1..], spent');
        RunOfRuns(c, s, first, rest);
        ops := first + rest;
      }
    }
  }

  lemma FirstOps(c: Config, s: State, m: Name, reqs: seq<Request>, spent: real)
    returns (goesOn: bool, ops: seq<Op>, s': State, spent': real)
    requires Keyed(c, s) && reqs != []
    ensures Requesting(ops, m) && Run(c, s, ops) == s' && Keyed(c, s')
    ensures if goesOn then RunRequests(c, s, m, reqs, spent) == RunRequests(c, s', m, reqs[1..], spent')
            else RunRequests(c, s, m, reqs, spent).0 == s'
  {
    var reserve := Reserve(m, reqs[0].payload);
    var (s1, out) := Step(c, s, reserve);
    ReservedFirst(c, s, m, reqs, spent, s1, out);
    ops, s', goesOn, spent' := [reserve], s1, false, spent;
    RunOfOne(c, s, reserve);
    if out.Granted? && reqs[0].cost.Some? {
      var settle := Reconcile(m, out.worst, reqs[0].cost.value);
      var (s2, out2) := Step(c, s1, settle);
      SettledFirst(c, s1, m, reqs, spent, out.worst, s2, out2);
      RunOfOne(c, s1, settle);
      RunOfRuns(c, s, [reserve], [settle]);
      ops, s', goesOn, spent' := [reserve] + [settle], s2, out2.Settled?, spent + reqs[0].cost.value;
    } else if out.Granted? {
      assert SettleNext(c, s1, m, reqs, spent, out.worst) == (s1, CaseAborted(CostOmitted));
    }
  }

  lemma RunOfOne(c: Config, s: State, op: Op)
    requires Keyed(c, s)
    ensures Run(c, s, [op]) == Step(c, s, op).0
  {
    assert [op][1..] == [];
  }

  lemma {:induction false} RunOfRuns(c: Config, s: State, a: seq<Op>, b: seq<Op>)
    requires Keyed(c, s)
    ensures Run(c, s, a + b) == Run(c, Run(c, s, a), b)
    decreases |a|
  {
    if a == [] {
      assert a + b == b;
    } else {
      assert (a + b)[1..] == a[1..] + b;
      RunOfRuns(c, Step(c, s, a[0]).0, a[1..], b);
    }
  }

  lemma StepFrame(c: Config, s: State, op: Op)
    requires Keyed(c, s) && !op.Finish?
    ensures Frame(s, Step(c, s, op).0, op.model)
  {
  }

  lemma {:induction false} RequestingFrame(c: Config, s: State, ops: seq<Op>, m: Name)
    requires Keyed(c, s) && Requesting(ops, m)
    ensures Frame(s, Run(c, s, ops), m)
    decreases |ops|
  {
    if ops != [] {
      StepFrame(c, s, ops[0]);
      RequestingFrame(c, Step(c, s, ops[0]).0, ops[1..], m);
    }
  }

  /** A case run of `m` leaves everybody else alone and keeps the ledger reachable. */
  lemma RunRequestsContinues(c: Config, s: State, m: Name, reqs: seq<Request>, spent: real)
    requires c.Valid() && Keyed(c, s) && Reachable(c, s)
    ensures var t := RunRequests(c, s, m, reqs, spent).0;
            Frame(s, t, m) && Reachable(c, t)
  {
    var ops := RunRequestsIsRun(c, s, m, reqs, spent);
    RequestingFrame(c, s, ops, m);
    var before :| Run(c, Initial(c), before) == s;
    RunOfRuns(c, Initial(c), before, ops);
  }

  // ----- the battle invariant -----

  ghost predicate Good(su: Setup, p: Progress)
    requires su.Valid()
  {
    var c := su.ledger;
    && p.abort.None? && Keyed(c, p.ledger)
    && Reachable(c, p.ledger) && Quiet(p.ledger) && Closed(p.ledger)
    && (forall r :: r in p.rows ==> r.job.model in c.caps)
    && (forall m :: m in c.caps ==> RowSpend(p.rows, m) <= p.ledger.accounts[m].actual)
    && (p.exhausted == {} <==> p.stopped == [])
    && (forall m :: m in p.exhausted ==> m in c.caps)
  }

  lemma SpendWithinCaps(su: Setup, p: Progress)
    requires su.Valid() && Keyed(su.ledger, p.ledger) && Reachable(su.ledger, p.ledger)
    requires forall m :: m in su.ledger.caps ==> RowSpend(p.rows, m) <= p.ledger.accounts[m].actual
    ensures WithinCaps(su.ledger, p.rows)
  {
    var c := su.ledger;
    var k := ReachableInv(c, p.ledger);
  }

  lemma FinishIsClean(c: Config, p: Progress, m: Name)
    requires c.Valid() && Keyed(c, p.ledger) && Reachable(c, p.ledger) && Quiet(p.ledger) && Closed(p.ledger)
    requires m in c.caps && m !in p.ledger.finished
    ensures var q := FinishModel(c, p, m);
            && q == p.(ledger := q.ledger)
            && Reachable(c, q.ledger) && Quiet(q.ledger) && Closed(q.ledger)
            && q.ledger.finished == p.ledger.finished + {m}
            && forall x :: x in c.caps ==> q.ledger.accounts[x].actual == p.ledger.accounts[x].actual
  {
    StepReachable(c, p.ledger, Finish(m));
  }

  /** What one job of a candidate that may still run does to the battle. */
  ghost predicate JobOk(su: Setup, p: Progress, q: Progress, job: Job, finishAfter: bool)
    requires su.Valid()
  {
    if q.abort.Some? then ProviderFault(q.abort.value)
    else
      && Good(su, q)
      && (if q.stopped == p.stopped then
            q.exhausted == p.exhausted && |q.rows| == |p.rows| + 1 && q.rows[..|p.rows|] == p.rows
            && q.rows[|p.rows|].job == job
            && q.ledger.finished == p.ledger.finished + (if finishAfter then {job.model} else {})
          else
            q.stopped == p.stopped + [job] && q.exhausted == p.exhausted + {job.model} && q.rows == p.rows
            && q.ledger.finished == p.ledger.finished + {job.model})
  }

  /** Finishing a candidate keeps the battle good, and adds it to the finished ones. */
  lemma FinishKeepsGood(su: Setup, p: Progress, m: Name)
    requires su.Valid() && Good(su, p) && m in su.ledger.caps && m !in p.ledger.finished
    ensures var q := FinishModel(su.ledger, p, m);
            Good(su, q) && q == p.(ledger := q.ledger) && q.ledger.finished == p.ledger.finished + {m}
  {
    FinishIsClean(su.ledger, p, m);
  }

  /** A ledger that moved on by a quiet case run of one candidate carries the battle. */
  lemma MoveKeepsGood(su: Setup, p: Progress, s: State, m: Name)
    requires su.Valid() && Good(su, p) && m in su.ledger.caps
    requires Keyed(su.ledger, s) && Reachable(su.ledger, s) && Frame(p.ledger, s, m) && Idle(su.ledger, s, m)
    requires p.ledger.accounts[m].actual <= s.accounts[m].actual
    ensures Good(su, p.(ledger := s))
  {
    var c := su.ledger;
    forall x | x in c.caps ensures RowSpend(p.rows, x) <= s.accounts[x].actual {
      if x != m { assert s.accounts[x] == p.ledger.accounts[x]; }
    }
  }

  lemma RowKeepsGood(su: Setup, p: Progress, s: State, row: Row)
    requires su.Valid() && Good(su, p) && row.job.model in su.ledger.caps
    requires Good(su, p.(ledger := s)) && Frame(p.ledger, s, row.job.model)
    requires s.accounts[row.job.model].actual == p.ledger.accounts[row.job.model].actual + row.cost
    ensures var q := p.(ledger := s, rows := p.rows + [row]);
            Good(su, q) && WithinCaps(su.ledger, q.rows)
  {
    var q := p.(ledger := s, rows := p.rows + [row]);
    assert q.rows[..|q.rows| - 1] == p.rows;
    forall x | x in su.ledger.caps ensures RowSpend(q.rows, x) <= s.accounts[x].actual {
      if x != row.job.model { assert s.accounts[x] == p.ledger.accounts[x]; }
    }
    SpendWithinCaps(su, q);
  }

  lemma ConcludeOk(su: Setup, p: Progress, job: Job, evidence: Evidence, s: State, r: CaseResult, finishAfter: bool)
    requires su.Valid() && Good(su, p) && job.model in su.ledger.caps
    requires job.model !in p.exhausted && job.model !in p.ledger.finished
    requires Keyed(su.ledger, s) && Reachable(su.ledger, s) && Frame(p.ledger, s, job.model)
    requires CaseOk(su.ledger, p.ledger, job.model, 0.0, s, r)
    ensures JobOk(su, p, Conclude(su, p, job, evidence, s, r, finishAfter), job, finishAfter)
  {
    match r
    case CaseAborted(_) =>
    case CaseExhausted =>
      MoveKeepsGood(su, p, s, job.model);
      ExhaustedOk(su, p, job, s, finishAfter);
    case CaseDone(cost) =>
      MoveKeepsGood(su, p, s, job.model);
      RowKeepsGood(su, p, s, Row(job, evidence, cost));
      DoneOk(su, p, Row(job, evidence, cost), s, finishAfter);
  }

  lemma ExhaustedOk(su: Setup, p: Progress, job: Job, s: State, finishAfter: bool)
    requires su.Valid() && Good(su, p.(ledger := s)) && job.model in su.ledger.caps
    requires job.model !in s.finished && s.finished == p.ledger.finished
    ensures var q := p.(ledger := s, exhausted := p.exhausted + {job.model}, stopped := p.stopped + [job]);
            JobOk(su, p, FinishModel(su.ledger, q, job.model), job, finishAfter)
  {
    var q := p.(ledger := s, exhausted := p.exhausted + {job.model}, stopped := p.stopped + [job]);
    assert job.model in q.exhausted;
    FinishKeepsGood(su, q, job.model);
  }

  lemma DoneOk(su: Setup, p: Progress, row: Row, s: State, finishAfter: bool)
    requires su.Valid() && row.job.model in su.ledger.caps && Good(su, p.(ledger := s, rows := p.rows + [row]))
    requires row.job.model !in s.finished && s.finished == p.ledger.finished
    ensures var q := p.(ledger := s, rows := p.rows + [row]);
            JobOk(su, p, if finishAfter then FinishModel(su.ledger, q, row.job.model) else q, row.job, finishAfter)
  {
    var q := p.(ledger := s, rows := p.rows + [row]);
    if finishAfter { FinishKeepsGood(su, q, row.job.model); }
  }

  lemma RunJobOk(su: Setup, provider: Job -> Script, p: Progress, job: Job, finishAfter: bool)
    requires su.Valid() && Good(su, p) && job.model in su.ledger.caps
    requires job.model !in p.exhausted && job.model !in p.ledger.finished
    ensures JobOk(su, p, RunJob(su, provider, p, job, finishAfter), job, finishAfter)
  {
    RunRequestsSettles(su.ledger, p.ledger, job.model, provider(job).requests, 0.0);
    RunRequestsContinues(su.ledger, p.ledger, job.model, provider(job).requests, 0.0);
    var r := RunRequests(su.ledger, p.ledger, job.model, provider(job).requests, 0.0);
    ConcludeOk(su, p, job, provider(job).evidence, r.0, r.1, finishAfter);
  }

  /** Who is finished while `jobs` are still to run: the exhausted, and in the finishing stage
      also everybody without a job left. */
  ghost predicate FinishedAt(su: Setup, p: Progress, jobs: seq<Job>, finishing: bool) {
    forall m :: m in su.ledger.caps ==>
      (m in p.ledger.finished <==> m in p.exhausted || (finishing && !HasJob(jobs, m)))
  }

  /** `q` has the rows and stopped jobs of `p` and then some. */
  ghost predicate Extends(p: Progress, q: Progress) {
    && |p.rows| <= |q.rows| && q.rows[..|p.rows|] == p.rows
    && |p.stopped| <= |q.stopped| && q.stopped[..|p.stopped|] == p.stopped
  }

  ghost function Added(p: Progress, q: Progress): seq<Job>
    requires Extends(p, q)
  {
    Keys(q.rows[|p.rows|..])
  }

  ghost function Gone(p: Progress, q: Progress): seq<Job>
    requires Extends(p, q)
  {
    q.stopped[|p.stopped|..]
  }

  /** While `jobs` ran, each of them was answered at most once or stopped at most once, not
      both; if nothing was ever stopped, the answers are the jobs in order. */
  ghost predicate Traced(p: Progress, q: Progress, jobs: seq<Job>) {
    && Extends(p, q)
    && multiset(Added(p, q)) + multiset(Gone(p, q)) <= multiset(jobs)
    && (q.stopped == [] ==> p.stopped == [] && Added(p, q) == jobs)
  }

  lemma NextHasJob(jobs: seq<Job>)
    requires jobs != [] && Grouped(jobs)
    ensures Grouped(jobs[1..])
    ensures HasJob(jobs[1..], jobs[0].model) <==> !(|jobs| == 1 || jobs[1].model != jobs[0].model)
    ensures forall m :: m != jobs[0].model ==> (HasJob(jobs[1..], m) <==> HasJob(jobs, m))
  {
    var rest := jobs[1..];
    assert forall k :: 0 <= k < |rest| ==> rest[k] == jobs[k + 1];
    if |jobs| > 1 && jobs[1].model == jobs[0].model {
      assert rest[0].model == jobs[0].model;
    }
    forall m | m != jobs[0].model ensures HasJob(rest, m) <==> HasJob(jobs, m) {
      if HasJob(jobs, m) {
        var i :| 0 <= i < |jobs| && jobs[i].model == m;
        assert rest[i - 1].model == m;
      }
    }
    if |jobs| > 1 && jobs[1].model != jobs[0].model {
      forall k | 0 <= k < |rest| ensures rest[k].model != jobs[0].model {
        if k > 0 { assert jobs[1].model == jobs[0].model || jobs[k + 1].model != jobs[0].model; }
      }
    }
  }

  /** One job further, whoever had to be finished is finished. */
  lemma FinishedStep(su: Setup, p: Progress, p1: Progress, jobs: seq<Job>, finishing: bool)
    requires su.Valid() && jobs != [] && (finishing ==> Grouped(jobs))
    requires FinishedAt(su, p, jobs, finishing)
    requires var last := |jobs| == 1 || jobs[1].model != jobs[0].model;
             if jobs[0].model in p.exhausted then p1 == p
             else p1.abort.None? && JobOk(su, p, p1, jobs[0], finishing && last)
    ensures FinishedAt(su, p1, jobs[1..], finishing)
  {
    assert HasJob(jobs, jobs[0].model);
    if finishing { NextHasJob(jobs); }
  }

  /** Running jobs of configured candidates only ever fails on the provider's account. */
  lemma {:induction false} RunJobsFacts(su: Setup, provider: Job -> Script, p: Progress, jobs: seq<Job>,
                                        finishing: bool)
    requires su.Valid() && Good(su, p) && NoDup(jobs) && (finishing ==> Grouped(jobs))
    requires forall j :: j in jobs ==> j.model in su.ledger.caps
    requires FinishedAt(su, p, jobs, finishing)
    ensures var q := RunJobs(su, provider, p, jobs, finishing);
            if q.abort.Some? then ProviderFault(q.abort.value)
            else Good(su, q) && FinishedAt(su, q, [], finishing) && Traced(p, q, jobs)
    decreases |jobs|
  {
    if jobs != [] {
      var rest := jobs[1..];
      var p1 := FirstJob(su, provider, p, jobs, finishing);
      if p1.abort.Some? {
        AbortSticks(su, provider, p1, rest, finishing);
      } else {
        RestOfJobs(jobs);
        RunJobsFacts(su, provider, p1, rest, finishing);
        var q := RunJobs(su, provider, p1, rest, finishing);
        if q.abort.None? { TracedStep(p, p1, q, jobs[0], rest); }
      }
    }
  }

  /** What the first of the jobs does, and that the rest goes on from there. */
  lemma FirstJob(su: Setup, provider: Job -> Script, p: Progress, jobs: seq<Job>, finishing: bool)
    returns (p1: Progress)
    requires su.Valid() && Good(su, p) && jobs != [] && (finishing ==> Grouped(jobs))
    requires jobs[0].model in su.ledger.caps && FinishedAt(su, p, jobs, finishing)
    ensures Keyed(su.ledger, p1.ledger)
    ensures RunJobs(su, provider, p, jobs, finishing) == RunJobs(su, provider, p1, jobs[1..], finishing)
    ensures if p1.abort.Some? then ProviderFault(p1.abort.value)
            else Good(su, p1) && FinishedAt(su, p1, jobs[1..], finishing) && Moved(p, p1, jobs[0])
  {
    var job := jobs[0];
    assert HasJob(jobs, job.model);
    var last := |jobs| == 1 || jobs[1].model != job.model;
    p1 := RunJob(su, provider, p, job, finishing && last);
    if job.model !in p.exhausted { RunJobOk(su, provider, p, job, finishing && last); }
    if p1.abort.None? { FinishedStep(su, p, p1, jobs, finishing); }
  }

  /** The job was skipped, answered, or stopped. */
  ghost predicate Moved(p: Progress, p1: Progress, job: Job) {
    || (p1 == p && p.stopped != [])
    || (p1.stopped == p.stopped && |p1.rows| == |p.rows| + 1 && p1.rows[..|p.rows|] == p.rows
        && p1.rows[|p.rows|].job == job)
    || (p1.stopped == p.stopped + [job] && p1.rows == p.rows)
  }

  lemma RestOfJobs(jobs: seq<Job>)
    requires jobs != [] && NoDup(jobs)
    ensures NoDup(jobs[1..]) && jobs[0] !in jobs[1..] && [jobs[0]] + jobs[1..] == jobs
    ensures forall j :: j in jobs[1..] ==> j in jobs
    ensures Grouped(jobs) ==> Grouped(jobs[1..])
  {
    var rest := jobs[1..];
    assert forall k :: 0 <= k < |rest| ==> rest[k] == jobs[k + 1];
  }

  lemma {:induction false} AbortSticks(su: Setup, provider: Job -> Script, p: Progress, jobs: seq<Job>, finishing: bool)
    requires su.Valid() && Keyed(su.ledger, p.ledger) && p.abort.Some?
    ensures RunJobs(su, provider, p, jobs, finishing) == p
    decreases |jobs|
  {
    if jobs != [] { AbortSticks(su, provider, p, jobs[1..], finishing); }
  }

  /** The step of `Traced`: the first job was skipped, answered or stopped, the rest is traced. */
  lemma TracedStep(p: Progress, p1: Progress, q: Progress, job: Job, rest: seq<Job>)
    requires Traced(p1, q, rest)
    requires Moved(p, p1, job)
    ensures Traced(p, q, [job] + rest)
  {
    ExtendsTransitive(p, p1, q);
    if |p1.rows| == |p.rows| + 1 {
      AnsweredFirst(p, p1, q, job);
    } else if p1 != p {
      StoppedFirst(p, p1, q, job);
    }
  }

  lemma AnsweredFirst(p: Progress, p1: Progress, q: Progress, job: Job)
    requires Extends(p, q) && Extends(p1, q) && p1.stopped == p.stopped
    requires |p1.rows| == |p.rows| + 1 && p1.rows[|p.rows|].job == job
    ensures Added(p, q) == [job] + Added(p1, q) && Gone(p, q) == Gone(p1, q)
  {
    var n := |p.rows|;
    assert q.rows[n] == q.rows[..n + 1][n];
    assert q.rows[n..] == [q.rows[n]] + q.rows[n + 1..];
  }

  lemma StoppedFirst(p: Progress, p1: Progress, q: Progress, job: Job)
    requires Extends(p, q) && Extends(p1, q) && p1.rows == p.rows && p1.stopped == p.stopped + [job]
    ensures Gone(p, q) == [job] + Gone(p1, q) && Added(p, q) == Added(p1, q)
  {
    var n := |p.stopped|;
    assert q.stopped[n] == q.stopped[..n + 1][n];
    assert q.stopped[n..] == [q.stopped[n]] + q.stopped[n + 1..];
  }

  lemma ExtendsTransitive(p: Progress, p1: Progress, q: Progress)
    requires Extends(p, p1) && Extends(p1, q)
    ensures Extends(p, q)
  {
    assert q.rows[..|p1.rows|][..|p.rows|] == q.rows[..|p.rows|];
    assert q.stopped[..|p1.stopped|][..|p.stopped|] == q.stopped[..|p.stopped|];
  }

  lemma {:induction false} FinishAllFacts(su: Setup, p: Progress, ms: seq<Name>)
    requires su.Valid() && Good(su, p) && NoDup(ms)
    requires forall m :: m in ms ==> m in su.ledger.caps && m !in p.ledger.finished
    ensures var q := FinishAll(su.ledger, p, ms);
            && Good(su, q) && q == p.(ledger := q.ledger)
            && forall m :: m in q.ledger.finished <==> m in p.ledger.finished || m in ms
    decreases |ms|
  {
    if ms != [] {
      var m, rest := ms[0], ms[1..];
      HeadAndRest(ms);
      FinishKeepsGood(su, p, m);
      FinishAllFacts(su, FinishModel(su.ledger, p, m), rest);
    }
  }

  lemma HeadAndRest(ms: seq<Name>)
    requires ms != [] && NoDup(ms)
    ensures NoDup(ms[1..]) && ms[0] in ms && ms[0] !in ms[1..]
    ensures forall m :: m in ms <==> m == ms[0] || m in ms[1..]
  {
    assert ms == [ms[0]] + ms[1..];
    assert forall k :: 0 <= k < |ms| - 1 ==> ms[1..][k] == ms[k + 1];
  }
}
