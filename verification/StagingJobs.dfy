/** The job lists of the battle: what they contain, that nothing repeats, and that the jobs of
    one candidate stay together whatever the shuffle does inside a block. */
module StagingJobs {
  import opened Prelude
  import opened Sorting
  import opened Grouping
  import opened Ledger
  import opened Staging

  ghost predicate Grouped(js: seq<Job>) {
    forall i, k, j :: 0 <= i < k < j < |js| && js[i].model == js[j].model ==> js[k].model == js[i].model
  }

  lemma {:induction false} ModelJobsContents(m: Name, cases: seq<Name>, reps: seq<nat>)
    ensures forall j :: j in ModelJobs(m, cases, reps) <==>
              j.model == m && j.caseId in cases && j.repetition in reps
  {
    if cases != [] {
      ModelJobsContents(m, cases[1..], reps);
      var head := MapSeq((r: nat) => Job(m, cases[0], r), reps);
      forall j ensures j in ModelJobs(m, cases, reps) <==> j.model == m && j.caseId in cases && j.repetition in reps {
        assert cases == [cases[0]] + cases[1..];
        if j.model == m && j.caseId == cases[0] && j.repetition in reps {
          var i :| 0 <= i < |reps| && reps[i] == j.repetition;
          assert head[i] == j;
        }
      }
    }
  }

  lemma {:induction false} ModelJobsNoDup(m: Name, cases: seq<Name>, reps: seq<nat>)
    requires NoDup(cases) && NoDup(reps)
    ensures NoDup(ModelJobs(m, cases, reps))
  {
    if cases != [] {
      var head := MapSeq((r: nat) => Job(m, cases[0], r), reps);
      var rest := cases[1..];
      assert forall k :: 0 <= k < |rest| ==> rest[k] == cases[k + 1];
      ModelJobsNoDup(m, rest, reps);
      ModelJobsContents(m, rest, reps);
      assert cases[0] !in rest;
      assert NoDup(head);
      NoDupAppend(head, ModelJobs(m, rest, reps));
    }
  }

  lemma BlockFacts(m: Name, cases: seq<Name>, reps: seq<nat>, stage: nat, sh: Shuffle)
    requires NoDup(cases) && NoDup(reps) && Rearranges(sh)
    ensures var block := sh(stage, Some(m), ModelJobs(m, cases, reps));
            && NoDup(block)
            && forall j :: j in block <==> j.model == m && j.caseId in cases && j.repetition in reps
  {
    var js := ModelJobs(m, cases, reps);
    ModelJobsContents(m, cases, reps);
    ModelJobsNoDup(m, cases, reps);
    SameElements(sh(stage, Some(m), js), js);
    NoDupPermutes(js, sh(stage, Some(m), js));
  }

  lemma {:induction false} JobsForFacts(ms: seq<Name>, cases: seq<Name>, reps: seq<nat>, stage: nat, sh: Shuffle)
    requires NoDup(ms) && NoDup(cases) && NoDup(reps) && Rearranges(sh)
    ensures var js := JobsFor(ms, cases, reps, stage, sh);
            && NoDup(js)
            && Grouped(js)
            && forall j :: j in js <==> j.model in ms && j.caseId in cases && j.repetition in reps
  {
    if ms != [] {
      var m, rest := ms[0], ms[1..];
      assert ms == [m] + rest;
      assert forall k :: 0 <= k < |rest| ==> rest[k] == ms[k + 1];
      assert m !in rest;
      var block := sh(stage, Some(m), ModelJobs(m, cases, reps));
      BlockFacts(m, cases, reps, stage, sh);
      JobsForFacts(rest, cases, reps, stage, sh);
      NoDupAppend(block, JobsFor(rest, cases, reps, stage, sh));
      GroupedAppend(block, JobsFor(rest, cases, reps, stage, sh), m);
    }
  }

  lemma GroupedAppend(block: seq<Job>, rest: seq<Job>, m: Name)
    requires forall j :: j in block ==> j.model == m
    requires forall j :: j in rest ==> j.model != m
    requires Grouped(rest)
    ensures Grouped(block + rest)
  {
    var js := block + rest;
    assert forall t :: |block| <= t < |js| ==> js[t] == rest[t - |block|] && js[t] in rest;
    assert forall t :: 0 <= t < |block| ==> js[t] == block[t] && js[t] in block;
    forall i, k, j | 0 <= i < k < j < |js| && js[i].model == js[j].model ensures js[k].model == js[i].model {
      if i >= |block| {
        assert js[i] == rest[i - |block|] && js[k] == rest[k - |block|] && js[j] == rest[j - |block|];
      }
    }
  }

  /** Whatever the shuffles, round zero has each candidate with each case once per repetition: one
      under a hard profile, all of them otherwise. */
  lemma RoundZeroJobsFacts(su: Setup, sh: Shuffle)
    requires su.Valid() && Rearranges(sh)
    ensures var js := RoundZeroJobs(su, sh);
            && NoDup(js) && Grouped(js)
            && (forall j :: j in js <==>
                  && j.model in su.ledger.models && j.caseId in su.cases
                  && 1 <= j.repetition <= (if su.Hard() then 1 else su.repetitions))
            && (su.Hard() ==> forall j :: j in js <==> IsRoundZero(su, j))
  {
    var ms := Sort(su.ledger.models, ByCost(su.ledger));
    NoDupPermutes(su.ledger.models, ms);
    var reps := UpTo(if su.Hard() then 1 else su.repetitions);
    JobsForFacts(ms, su.cases, reps, 0, sh);
    UpToContents(if su.Hard() then 1 else su.repetitions);
  }

  lemma UpToContents(n: nat)
    ensures forall r: nat :: r in UpTo(n) <==> 1 <= r <= n
  {
    forall r: nat | 1 <= r <= n ensures r in UpTo(n) { assert UpTo(n)[r - 1] == r; }
  }

  lemma SurvivorsFacts(suite: Suite, rows: seq<Row>)
    ensures NoDup(Survivors(suite, rows))
    ensures forall m :: m in Survivors(suite, rows) <==>
              Advances(suite, rows, m)
    ensures forall m :: m in Survivors(suite, rows) ==> exists r :: r in rows && r.job.model == m
  {
    var seen := ModelsOf(rows);
    var kept := Filter(Advancing(suite, rows), seen);
    FilterNoDup(Advancing(suite, rows), seen);
    NoDupPermutes(kept, Survivors(suite, rows));
    forall m | Advances(suite, rows, m) ensures m in seen && exists r :: r in rows && r.job.model == m {
      var r := Scored(rows, m)[0];
      assert r in Scored(rows, m);
      assert r in rows;
      var i :| 0 <= i < |rows| && rows[i] == r;
      assert MapSeq(ROW_MODEL, rows)[i] == m;
    }
  }

  /** Who survives, row by row: somebody with a row that is not truncated, all such rows passing,
      and on the system suite at least 95 of 100 semantic points over them. */
  lemma SurvivorsExactly(suite: Suite, rows: seq<Row>, m: Name)
    ensures m in Survivors(suite, rows) <==>
      && (exists r :: r in rows && r.job.model == m && r.evidence.status != Truncated)
      && (forall r :: r in rows && r.job.model == m && r.evidence.status != Truncated ==> RowPasses(suite, r.evidence))
      && (suite == System ==>
            var correct, total := SumCorrect(Scored(rows, m)), SumTotal(Scored(rows, m));
            total > 0 && 100.0 * correct as real >= 95.0 * total as real)
  {
    SurvivorsFacts(suite, rows);
    var scored := Scored(rows, m);
    assert scored != [] ==> scored[0] in scored;
    assert (forall i :: 0 <= i < |scored| ==> RowPasses(suite, scored[i].evidence))
      <==> forall r :: r in scored ==> RowPasses(suite, r.evidence);
    var correct, total := SumCorrect(scored) as real, SumTotal(scored) as real;
    if total > 0.0 { ShareAtLeast(correct, total); }
  }

  lemma ShareAtLeast(correct: real, total: real)
    requires total > 0.0
    ensures correct / total >= 0.95 <==> 100.0 * correct >= 95.0 * total
  {
    var share := correct / total;
    assert share * total == correct;
    assert share >= 0.95 ==> share * total >= 0.95 * total;
    assert share < 0.95 ==> share * total < 0.95 * total;
  }

  /** A truncated answer counts neither for nor against anybody. */
  lemma TruncatedRowsAreIgnored(suite: Suite, before: seq<Row>, r: Row, after: seq<Row>, m: Name)
    requires r.evidence.status == Truncated
    ensures m in Survivors(suite, before + [r] + after) <==> m in Survivors(suite, before + after)
  {
    SurvivorsFacts(suite, before + [r] + after);
    SurvivorsFacts(suite, before + after);
    DroppedByFilter(ScoredOf(m), before, r, after);
  }

  lemma DroppedByFilter(p: Row -> bool, before: seq<Row>, r: Row, after: seq<Row>)
    requires !p(r)
    ensures Filter(p, before + [r] + after) == Filter(p, before + after)
  {
    FilterAppend(p, before + [r], after);
    FilterAppend(p, before, [r]);
    FilterAppend(p, before, after);
    NoneKept(p, [r]);
    assert Filter(p, before) + [] == Filter(p, before);
  }

  lemma {:induction false} FilterNoDup<T(!new)>(p: T -> bool, s: seq<T>)
    requires NoDup(s)
    ensures NoDup(Filter(p, s))
  {
    if s != [] {
      var rest := s[1..];
      assert forall k :: 0 <= k < |rest| ==> rest[k] == s[k + 1];
      assert s[0] !in rest;
      FilterNoDup(p, rest);
      NoDupAppend(if p(s[0]) then [s[0]] else [], Filter(p, rest));
    }
  }

  lemma RepeatedCasesFacts(su: Setup, rows: seq<Row>)
    requires NoDup(su.cases)
    ensures NoDup(RepeatedCases(su, rows))
  {
    if su.profile == BackgroundHard && su.suite == System {
      var chosen := Differentiating(rows, 3);
      FilterNoDup(c => c in chosen, su.cases);
    }
  }

  lemma SurvivorJobsFacts(su: Setup, rows: seq<Row>, sh: Shuffle)
    requires su.Valid() && Rearranges(sh)
    ensures var js := SurvivorJobs(su, rows, sh);
            && NoDup(js)
            && Grouped(js)
            && forall j :: j in js <==>
                 j.model in Survivors(su.suite, rows) && j.caseId in RepeatedCases(su, rows)
                 && (j.repetition == 2 || j.repetition == 3)
  {
    var survivors := Survivors(su.suite, rows);
    SurvivorsFacts(su.suite, rows);
    var ms := Sort(survivors, ByCost(su.ledger));
    NoDupPermutes(survivors, ms);
    var cases := RepeatedCases(su, rows);
    RepeatedCasesFacts(su, rows);
    JobsForFacts(ms, cases, [2, 3], 1, sh);
    assert forall r: nat :: r in [2, 3] <==> r == 2 || r == 3;
  }

  // ----- without cost estimates -----

  lemma {:induction false} CaseJobsFacts(ms: seq<Name>, caseId: Name, reps: seq<nat>)
    requires NoDup(ms) && NoDup(reps)
    ensures NoDup(CaseJobs(ms, caseId, reps))
    ensures forall j :: j in CaseJobs(ms, caseId, reps) <==> j.model in ms && j.caseId == caseId && j.repetition in reps
  {
    if reps != [] {
      var rest := reps[1..];
      assert reps == [reps[0]] + rest && forall k :: 0 <= k < |rest| ==> rest[k] == reps[k + 1];
      CaseJobsFacts(ms, caseId, rest);
      var head := MapSeq((m: Name) => Job(m, caseId, reps[0]), ms);
      RepetitionJobs(ms, caseId, reps[0]);
      NoDupAppend(head, CaseJobs(ms, caseId, rest));
    }
  }

  lemma RepetitionJobs(ms: seq<Name>, caseId: Name, r: nat)
    requires NoDup(ms)
    ensures NoDup(MapSeq((m: Name) => Job(m, caseId, r), ms))
    ensures forall j :: j in MapSeq((m: Name) => Job(m, caseId, r), ms) <==>
              j.model in ms && j.caseId == caseId && j.repetition == r
  {
    var js := MapSeq((m: Name) => Job(m, caseId, r), ms);
    forall j ensures j in js <==> j.model in ms && j.caseId == caseId && j.repetition == r {
      if j.model in ms && j.caseId == caseId && j.repetition == r {
        var i :| 0 <= i < |ms| && ms[i] == j.model;
        assert js[i] == j;
      }
    }
  }

  lemma {:induction false} FlatJobsFacts(ms: seq<Name>, cases: seq<Name>, reps: seq<nat>)
    requires NoDup(ms) && NoDup(cases) && NoDup(reps)
    ensures NoDup(FlatJobs(ms, cases, reps))
    ensures forall j :: j in FlatJobs(ms, cases, reps) <==> j.model in ms && j.caseId in cases && j.repetition in reps
  {
    if cases != [] {
      var rest := cases[1..];
      assert cases == [cases[0]] + rest && forall k :: 0 <= k < |rest| ==> rest[k] == cases[k + 1];
      assert cases[0] !in rest;
      FlatJobsFacts(ms, rest, reps);
      CaseJobsFacts(ms, cases[0], reps);
      NoDupAppend(CaseJobs(ms, cases[0], reps), FlatJobs(ms, rest, reps));
    }
  }

  /** With or without cost estimates the survivors get the very same jobs, each once; the estimates
      only decide about their order. */
  lemma EstimatesOnlyOrder(su: Setup, rows: seq<Row>, sh: Shuffle)
    requires su.Valid() && Rearranges(sh)
    ensures multiset(UncostedSurvivorJobs(su, rows, sh)) == multiset(SurvivorJobs(su, rows, sh))
  {
    var ms, cases := Survivors(su.suite, rows), RepeatedCases(su, rows);
    SurvivorsFacts(su.suite, rows);
    RepeatedCasesFacts(su, rows);
    FlatJobsFacts(ms, cases, [2, 3]);
    SurvivorJobsFacts(su, rows, sh);
    NoDupSameElements(FlatJobs(ms, cases, [2, 3]), SurvivorJobs(su, rows, sh));
  }

  // ----- what the differentiating cases are -----

  /** The chosen cases are the first `limit` of all cases that have rows, or all of them when
      there are fewer, in the order of falling spread and, at equal spread, of rising name. */
  lemma DifferentiatingExact(rows: seq<Row>, limit: nat)
    ensures var chosen, seen := Differentiating(rows, limit), KeysOf(ROW_CASE, rows);
            && (forall c :: c in seen <==> exists r :: r in rows && r.job.caseId == c)
            && NoDup(seen) && NoDup(chosen) && |chosen| == (if limit <= |seen| then limit else |seen|)
            && (forall i, j :: 0 <= i < j < |chosen| ==> WiderFirst(rows)(chosen[i], chosen[j]))
            && (forall c :: c in chosen ==> c in seen)
            && (forall c, other :: c in chosen && other in seen && other !in chosen ==>
                  Spread(rows, c) > Spread(rows, other) || (Spread(rows, c) == Spread(rows, other) && c < other))
  {
    var seen := KeysOf(ROW_CASE, rows);
    var ranked, chosen := Sort(seen, WiderFirst(rows)), Differentiating(rows, limit);
    KeysOfContents(ROW_CASE, rows);
    WiderFirstIsPreorder(rows);
    SortSorts(seen, WiderFirst(rows));
    NoDupPermutes(seen, ranked);
    assert forall i :: 0 <= i < |chosen| ==> chosen[i] == ranked[i];
    forall c | c in chosen ensures c in seen {
      var i :| 0 <= i < |chosen| && chosen[i] == c;
      assert ranked[i] in ranked;
    }
    forall c, other | c in chosen && other in seen && other !in chosen
      ensures Spread(rows, c) > Spread(rows, other) || (Spread(rows, c) == Spread(rows, other) && c < other)
    {
      ChosenComesFirst(rows, limit, c, other);
    }
  }

  lemma ChosenComesFirst(rows: seq<Row>, limit: nat, c: Name, other: Name)
    requires c in Differentiating(rows, limit)
    requires other in KeysOf(ROW_CASE, rows) && other !in Differentiating(rows, limit)
    ensures Spread(rows, c) > Spread(rows, other) || (Spread(rows, c) == Spread(rows, other) && c < other)
  {
    WiderFirstIsPreorder(rows);
    PrefixOfSort(KeysOf(ROW_CASE, rows), WiderFirst(rows), |Differentiating(rows, limit)|, c, other);
    assert WiderFirst(rows)(c, other);
  }

  /** A chosen case spreads the candidates at least as far as any case that was not chosen. */
  lemma DifferentiatingAreWidest(rows: seq<Row>, limit: nat, chosen: Name, other: Name)
    requires chosen in Differentiating(rows, limit) && other !in Differentiating(rows, limit)
    requires exists r :: r in rows && r.job.caseId == other
    ensures Spread(rows, other) <= Spread(rows, chosen)
  {
    DifferentiatingExact(rows, limit);
  }

  lemma WiderFirstIsPreorder(rows: seq<Row>)
    ensures TotalPreorder(WiderFirst(rows))
  {
  }
}
