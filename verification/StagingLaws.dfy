/** The staged battle against its validator, for every provider behaviour and every shuffle. */
module StagingLaws {
  import opened Prelude
  import opened Ledger
  import opened LedgerLaws
  import opened Staging
  import opened StagingJobs
  import opened StagingRuns

  /** The keys that a stage added, and the jobs it stopped at. */
  lemma StageKeys(p: Progress, q: Progress, jobs: seq<Job>)
    requires Traced(p, q, jobs) && NoDup(jobs)
    ensures NoDup(Added(p, q))
    ensures forall j :: j in Added(p, q) ==> j in jobs
    ensures forall j :: j in Gone(p, q) ==> j in jobs && j !in Added(p, q)
    ensures Keys(q.rows) == Keys(p.rows) + Added(p, q)
  {
    SplitBag(Added(p, q), Gone(p, q), jobs);
    KeysAppend(p.rows, q.rows[|p.rows|..]);
    assert q.rows == p.rows + q.rows[|p.rows|..];
  }

  lemma KeysAppend(a: seq<Row>, b: seq<Row>)
    ensures Keys(a + b) == Keys(a) + Keys(b)
  {
  }

  lemma SplitBag(a: seq<Job>, b: seq<Job>, jobs: seq<Job>)
    requires NoDup(jobs) && multiset(a) + multiset(b) <= multiset(jobs)
    ensures NoDup(a)
    ensures forall j :: j in a ==> j in jobs
    ensures forall j :: j in b ==> j in jobs && j !in a
  {
    NoDupMultiplicity(jobs);
    SubBagNoDup(a, jobs);
    forall j | j in a || j in b ensures j in jobs && !(j in a && j in b) {
      assert j in multiset(a) || j in multiset(b);
      assert j in multiset(jobs);
      assert multiset(a)[j] + multiset(b)[j] <= 1;
    }
  }

  lemma SubBagNoDup(a: seq<Job>, jobs: seq<Job>)
    requires NoDup(jobs) && multiset(a) <= multiset(jobs)
    ensures NoDup(a)
  {
    NoDupMultiplicity(jobs);
    forall i, k | 0 <= i < k < |a| ensures a[i] != a[k] {
      assert a == a[..k] + [a[k]] + a[k + 1..];
      assert a[k] in multiset(a) && a[k] in multiset(jobs);
      assert multiset(a)[a[k]] == multiset(a[..k])[a[k]] + 1 + multiset(a[k + 1..])[a[k]];
      assert a[i] in multiset(a[..k]);
    }
  }

  /** The first repetitions are what round zero collected. */
  lemma SplitByRepetition(first: seq<Row>, rest: seq<Row>)
    requires forall i :: 0 <= i < |first| ==> first[i].job.repetition == 1
    requires forall i :: 0 <= i < |rest| ==> rest[i].job.repetition != 1
    ensures FirstRepetition(first + rest) == first
  {
    var isFirst := (r: Row) => r.job.repetition == 1;
    FilterAppend(isFirst, first, rest);
    AllKept(isFirst, first);
    NoneKept(isFirst, rest);
  }

  /** Two traced stages leave a matrix the validator accepts exactly when nothing was stopped. */
  lemma MatrixIffNothingStopped(su: Setup, sh: Shuffle, p1: Progress, p2: Progress, q: Progress)
    requires su.Valid() && su.Hard() && Rearranges(sh)
    requires Traced(Start(su.ledger), p1, RoundZeroJobs(su, sh))
    requires p2.rows == p1.rows && p2.stopped == p1.stopped
    requires Traced(p2, q, SurvivorJobs(su, p1.rows, sh))
    ensures ValidMatrix(su, q.rows) <==> q.stopped == []
  {
    RoundZeroJobsFacts(su, sh);
    SurvivorJobsFacts(su, p1.rows, sh);
    TracedMatrix(su, Start(su.ledger), RoundZeroJobs(su, sh), p1, p2, SurvivorJobs(su, p1.rows, sh), q);
  }

  /** Keys of both stages: at most the expected ones, and a stopped job is missing. */
  lemma StagesTogether(p0: Progress, first: seq<Job>, p1: Progress, p2: Progress, later: seq<Job>, q: Progress)
    requires p0.rows == [] && p0.stopped == []
    requires NoDup(first) && NoDup(later) && forall j :: j in first ==> j !in later
    requires Traced(p0, p1, first) && Traced(p2, q, later)
    requires p2.rows == p1.rows && p2.stopped == p1.stopped
    ensures NoDup(Keys(q.rows))
    ensures forall j :: j in Keys(q.rows) ==> j in first || j in later
    ensures q.stopped == [] ==> Keys(q.rows) == first + later
    ensures q.stopped != [] ==> exists j :: j !in Keys(q.rows) && (j in first || j in later)
    ensures Keys(p1.rows) == Added(p0, p1) && Keys(q.rows) == Keys(p1.rows) + Added(p2, q)
    ensures forall j :: j in Added(p0, p1) ==> j in first
    ensures forall j :: j in Added(p2, q) ==> j in later
  {
    StageKeys(p0, p1, first);
    StageKeys(p2, q, later);
    NoDupAppend(Added(p0, p1), Added(p2, q));
    if q.stopped != [] {
      var j := q.stopped[0];
      if p1.stopped != [] {
        assert j == p1.stopped[0];
        assert j in Gone(p0, p1);
      } else {
        assert j in Gone(p2, q);
      }
    }
  }

  /** The jobs of round zero. */
  ghost predicate FirstJobs(su: Setup, first: seq<Job>) {
    NoDup(first) && forall j :: j in first <==> IsRoundZero(su, j)
  }

  /** The jobs of the survivors of these round-zero rows. */
  ghost predicate LaterJobs(su: Setup, firstRows: seq<Row>, later: seq<Job>) {
    NoDup(later) && forall j :: j in later <==>
      j.model in Survivors(su.suite, firstRows) && j.caseId in RepeatedCases(su, firstRows)
      && (j.repetition == 2 || j.repetition == 3)
  }

  lemma StagesDiffer(su: Setup, firstRows: seq<Row>, first: seq<Job>, later: seq<Job>)
    requires FirstJobs(su, first) && LaterJobs(su, firstRows, later)
    ensures forall j :: j in first ==> j !in later && j.repetition == 1
    ensures forall j :: j in later ==> j.repetition != 1
  {
  }

  lemma MatrixIff(su: Setup, first: seq<Job>, later: seq<Job>, firstRows: seq<Row>, rows: seq<Row>)
    requires FirstJobs(su, first) && LaterJobs(su, firstRows, later)
    requires NoDup(Keys(rows)) && FirstRepetition(rows) == firstRows
    requires forall j :: j in Keys(rows) ==> j in first || j in later
    ensures ValidMatrix(su, rows) <==> forall j :: j in first || j in later ==> j in Keys(rows)
  {
    assert forall j :: IsExpected(su, firstRows, j) <==> j in first || j in later;
  }

  lemma StagesSplit(first: seq<Row>, rows: seq<Row>)
    requires |first| <= |rows| && rows[..|first|] == first
    requires forall j :: j in Keys(first) ==> j.repetition == 1
    requires forall j :: j in Keys(rows[|first|..]) ==> j.repetition != 1
    ensures FirstRepetition(rows) == first
  {
    var rest := rows[|first|..];
    assert rows == first + rest;
    assert forall i :: 0 <= i < |first| ==> Keys(first)[i] == first[i].job;
    assert forall i :: 0 <= i < |rest| ==> Keys(rest)[i] == rest[i].job;
    SplitByRepetition(first, rest);
  }

  lemma TracedMatrix(su: Setup, p0: Progress, first: seq<Job>, p1: Progress, p2: Progress, later: seq<Job>, q: Progress)
    requires p0.rows == [] && p0.stopped == []
    requires FirstJobs(su, first) && LaterJobs(su, p1.rows, later)
    requires Traced(p0, p1, first) && Traced(p2, q, later)
    requires p2.rows == p1.rows && p2.stopped == p1.stopped
    ensures ValidMatrix(su, q.rows) <==> q.stopped == []
  {
    StagesDiffer(su, p1.rows, first, later);
    StagesTogether(p0, first, p1, p2, later, q);
    StagesSplit(p1.rows, q.rows);
    MatrixIff(su, first, later, p1.rows, q.rows);
    CompleteIff(first, later, Keys(q.rows), q.stopped);
  }

  lemma CompleteIff(first: seq<Job>, later: seq<Job>, keys: seq<Job>, stopped: seq<Job>)
    requires stopped == [] ==> keys == first + later
    requires stopped != [] ==> exists j :: j !in keys && (j in first || j in later)
    ensures (forall j :: j in first || j in later ==> j in keys) <==> stopped == []
  {
  }

  // ----- whole battles -----

  lemma StartGood(su: Setup, jobs: seq<Job>)
    requires su.Valid()
    ensures Good(su, Start(su.ledger)) && FinishedAt(su, Start(su.ledger), jobs, false)
  {
    var c := su.ledger;
    assert Run(c, Initial(c), []) == Initial(c);
  }

  lemma OnlyExhaustedFinished(su: Setup, p: Progress)
    requires su.Valid() && Good(su, p) && FinishedAt(su, p, [], false)
    ensures p.ledger.finished == p.exhausted
  {
    forall m ensures m in p.ledger.finished <==> m in p.exhausted {
      assert m in p.ledger.finished ==> m in p.ledger.accounts;
      assert m in p.ledger.accounts <==> m in su.ledger.caps;
    }
  }

  /** Round zero, from the empty books. */
  lemma RoundZeroFacts(su: Setup, sh: Shuffle, provider: Job -> Script)
    requires su.Valid() && Rearranges(sh)
    ensures var p := RunJobs(su, provider, Start(su.ledger), RoundZeroJobs(su, sh), false);
            if p.abort.Some? then ProviderFault(p.abort.value)
            else Good(su, p) && p.ledger.finished == p.exhausted && Traced(Start(su.ledger), p, RoundZeroJobs(su, sh))
  {
    RoundZeroJobsFacts(su, sh);
    StartGood(su, RoundZeroJobs(su, sh));
    FirstStageFacts(su, provider, Start(su.ledger), RoundZeroJobs(su, sh));
  }

  lemma FirstStageFacts(su: Setup, provider: Job -> Script, p0: Progress, jobs: seq<Job>)
    requires su.Valid() && Good(su, p0) && FinishedAt(su, p0, jobs, false)
    requires NoDup(jobs) && forall j :: j in jobs ==> j.model in su.ledger.models
    ensures var p := RunJobs(su, provider, p0, jobs, false);
            if p.abort.Some? then ProviderFault(p.abort.value)
            else Good(su, p) && p.ledger.finished == p.exhausted && Traced(p0, p, jobs)
  {
    RunJobsFacts(su, provider, p0, jobs, false);
    var p := RunJobs(su, provider, p0, jobs, false);
    if p.abort.None? { OnlyExhaustedFinished(su, p); }
  }

  /** Everybody without a survivor job is finished before the survivor stage. */
  lemma EliminationFacts(su: Setup, p: Progress, jobs: seq<Job>)
    requires su.Valid() && Good(su, p) && p.ledger.finished == p.exhausted
    ensures var q := FinishAll(su.ledger, p, Filter(Eliminated(jobs, p), su.ledger.models));
            && Good(su, q) && q == p.(ledger := q.ledger)
            && FinishedAt(su, q, jobs, true)
  {
    FilterNoDup(Eliminated(jobs, p), su.ledger.models);
    FinishAllFacts(su, p, Filter(Eliminated(jobs, p), su.ledger.models));
  }

  lemma SurvivorsAreConfigured(su: Setup, p: Progress)
    requires su.Valid() && Good(su, p)
    ensures forall m :: m in Survivors(su.suite, p.rows) ==> m in su.ledger.caps
  {
    SurvivorsFacts(su.suite, p.rows);
  }

  /** The whole battle under a hard profile: either the provider broke it off, or everybody is
      finished over a quiet ledger, and the validator accepts the rows exactly when no
      candidate was stopped. */
  lemma HardBattleFacts(su: Setup, sh: Shuffle, provider: Job -> Script)
    requires su.Valid() && su.Hard() && Rearranges(sh)
    ensures var q := Battle(su, sh, provider);
            if q.abort.Some? then ProviderFault(q.abort.value)
            else Good(su, q) && FinishedAt(su, q, [], true) && (ValidMatrix(su, q.rows) <==> q.stopped == [])
  {
    RoundZeroFacts(su, sh, provider);
    var p1 := RunJobs(su, provider, Start(su.ledger), RoundZeroJobs(su, sh), false);
    if p1.abort.None? {
      SurvivorStageFacts(su, sh, provider, p1);
    }
  }

  lemma SurvivorStageFacts(su: Setup, sh: Shuffle, provider: Job -> Script, p1: Progress)
    requires su.Valid() && su.Hard() && Rearranges(sh)
    requires Good(su, p1) && p1.ledger.finished == p1.exhausted
    requires Traced(Start(su.ledger), p1, RoundZeroJobs(su, sh))
    ensures var jobs := SurvivorJobs(su, p1.rows, sh);
            var eliminated := Filter(Eliminated(jobs, p1), su.ledger.models);
            var q := RunJobs(su, provider, FinishAll(su.ledger, p1, eliminated), jobs, true);
            if q.abort.Some? then ProviderFault(q.abort.value)
            else Good(su, q) && FinishedAt(su, q, [], true) && (ValidMatrix(su, q.rows) <==> q.stopped == [])
  {
    var jobs := SurvivorJobs(su, p1.rows, sh);
    var eliminated := Filter(Eliminated(jobs, p1), su.ledger.models);
    SurvivorJobsFacts(su, p1.rows, sh);
    SurvivorsAreConfigured(su, p1);
    EliminationFacts(su, p1, jobs);
    var p2 := FinishAll(su.ledger, p1, eliminated);
    RunJobsFacts(su, provider, p2, jobs, true);
    var q := RunJobs(su, provider, p2, jobs, true);
    if q.abort.None? {
      MatrixIffNothingStopped(su, sh, p1, p2, q);
    }
  }

  lemma OriginalBattleFacts(su: Setup, sh: Shuffle, provider: Job -> Script)
    requires su.Valid() && !su.Hard() && Rearranges(sh)
    ensures var q := Battle(su, sh, provider);
            if q.abort.Some? then ProviderFault(q.abort.value) else Good(su, q) && FinishedAt(su, q, [], true)
  {
    RoundZeroFacts(su, sh, provider);
    var p := RunJobs(su, provider, Start(su.ledger), RoundZeroJobs(su, sh), false);
    if p.abort.None? {
      FilterNoDup(StillActive(p), su.ledger.models);
      FinishAllFacts(su, p, Filter(StillActive(p), su.ledger.models));
    }
  }

  /** The rows a hard-profile battle collects satisfy the independent validator exactly when no
      candidate ran out of money. */
  lemma StagedRunRefinesValidator(su: Setup, sh: Shuffle, provider: Job -> Script)
    requires su.Valid() && su.Hard() && Rearranges(sh)
    ensures var q := Battle(su, sh, provider);
            q.abort.None? ==>
              && (ValidMatrix(su, q.rows) <==> q.stopped == [])
              && (q.stopped == [] <==> q.exhausted == {})
  {
    HardBattleFacts(su, sh, provider);
  }

  /** Whatever the provider answers, a battle can only be broken off by the provider: by a
      missing cost, or by a cost or request the ledger refuses. It never finishes a candidate
      twice or with money pending, never settles what it did not reserve, and the cap check over
      the rows never fires. When it is not broken off, every candidate is finished and nothing
      is left reserved. */
  lemma BattleEndsFinished(su: Setup, sh: Shuffle, provider: Job -> Script)
    requires su.Valid() && Rearranges(sh)
    ensures var q := Battle(su, sh, provider);
            if q.abort.Some? then ProviderFault(q.abort.value)
            else
              && (forall m :: m in q.ledger.finished <==> m in su.ledger.models)
              && (forall m :: m in su.ledger.models ==>
                    q.ledger.accounts[m].pending == 0.0 && q.ledger.accounts[m].own == 0.0
                    && q.ledger.accounts[m].reservations == [])
              && WithinCaps(su.ledger, q.rows)
  {
    if su.Hard() { HardBattleFacts(su, sh, provider); } else { OriginalBattleFacts(su, sh, provider); }
    var q := Battle(su, sh, provider);
    if q.abort.None? {
      SpendWithinCaps(su, q);
      EverybodyFinished(su, q);
    }
  }

  lemma EverybodyFinished(su: Setup, q: Progress)
    requires su.Valid() && Good(su, q) && FinishedAt(su, q, [], true)
    ensures forall m :: m in q.ledger.finished <==> m in su.ledger.models
    ensures forall m :: m in su.ledger.models ==>
              && q.ledger.accounts[m].pending == 0.0 && q.ledger.accounts[m].own == 0.0
              && q.ledger.accounts[m].reservations == []
  {
    forall m ensures m in q.ledger.finished <==> m in su.ledger.models {
      assert m in q.ledger.finished ==> m in q.ledger.accounts;
      assert !HasJob([], m);
    }
  }

  /** At the end every allowance is accounted for: what was spent and what is left in the pool. */
  lemma BattleSpendsItsAllowances(su: Setup, sh: Shuffle, provider: Job -> Script)
    requires su.Valid() && Rearranges(sh)
    ensures var q := Battle(su, sh, provider);
            q.abort.None? ==>
              TotalActual(su.ledger.models, q.ledger.accounts) + q.ledger.carry == TotalAllowance(su.ledger)
  {
    BattleEndsFinished(su, sh, provider);
    if su.Hard() { HardBattleFacts(su, sh, provider); } else { OriginalBattleFacts(su, sh, provider); }
    var q := Battle(su, sh, provider);
    if q.abort.None? {
      AllMoneySpentOrCarried(su.ledger, q.ledger);
    }
  }

  lemma AllMoneySpentOrCarried(c: Config, s: State)
    requires c.Valid() && c.Listed() && Keyed(c, s) && Reachable(c, s)
    requires forall m :: m in c.models ==> s.accounts[m].pending == 0.0 && s.accounts[m].own == 0.0
    ensures TotalActual(c.models, s.accounts) + s.carry == TotalAllowance(c)
  {
    var ops :| Run(c, Initial(c), ops) == s;
    Conservation(c, ops);
    ActualWithinWorth(c.models, s.accounts);
  }
}
