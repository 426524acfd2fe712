/** Evaluating blind reviews as the program does: pair by pair and label by label, collecting
    points and hard-gate observations per revealed model in dictionaries. */
module Reviewing {
  import opened Prelude
  import opened Grouping
  import opened Blinding

  /** The dictionaries hold what was observed so far of model `m`. */
  ghost predicate TalliedFor(t: Terms, obs: seq<Observation>, points: map<Name, seq<int>>, gates: map<Name, bool>,
                             m: Name)
  {
    if m in Models(obs) then
      && m in points && points[m] == Points(t, About(obs, m))
      && m in gates && (gates[m] <==> NoneCritical(About(obs, m)))
    else m !in points && m !in gates
  }

  ghost predicate Tallied(t: Terms, obs: seq<Observation>, points: map<Name, seq<int>>, gates: map<Name, bool>) {
    forall m :: TalliedFor(t, obs, points, gates, m)
  }

  lemma ModelsOneMore(obs: seq<Observation>, o: Observation)
    ensures Models(obs + [o]) == Models(obs) + {o.model}
  {
    assert forall x :: x in obs + [o] <==> x in obs || x == o;
  }

  lemma AboutOneMore(obs: seq<Observation>, o: Observation, m: Name)
    ensures About(obs + [o], m) == About(obs, m) + if o.model == m then [o] else []
  {
    FilterAppend(KeyIs(OBSERVED_MODEL, m), obs, [o]);
    assert [o][1..] == [];
  }

  lemma PointsOneMore(t: Terms, obs: seq<Observation>, o: Observation)
    ensures Points(t, obs + [o]) == Points(t, obs) + Values(t.dimensions, o.rubric)
  {
    assert (obs + [o])[..|obs|] == obs;
  }

  lemma NothingAbout(obs: seq<Observation>, m: Name)
    requires m !in Models(obs)
    ensures About(obs, m) == []
  {
    assert forall i :: 0 <= i < |obs| ==> obs[i] in obs && obs[i].model in Models(obs);
    NoneKept(KeyIs(OBSERVED_MODEL, m), obs);
  }

  /** One observation more. */
  method Tally(t: Terms, ghost obs: seq<Observation>, points: map<Name, seq<int>>, gates: map<Name, bool>,
               o: Observation)
    returns (points': map<Name, seq<int>>, gates': map<Name, bool>)
    requires Tallied(t, obs, points, gates)
    ensures Tallied(t, obs + [o], points', gates')
  {
    var m := o.model;
    points' := points[m := (if m in points then points[m] else []) + Values(t.dimensions, o.rubric)];
    gates' := gates[m := (if m in gates then gates[m] else true) && !o.rubric.critical];
    forall x ensures TalliedFor(t, obs + [o], points', gates', x) {
      assert TalliedFor(t, obs, points, gates, x);
      if x == m {
        TalliedOwn(t, obs, points, gates, o, points', gates');
      } else {
        TalliedOther(t, obs, points, gates, o, points', gates', x);
      }
    }
  }

  lemma TalliedOther(t: Terms, obs: seq<Observation>, points: map<Name, seq<int>>, gates: map<Name, bool>,
                     o: Observation, points': map<Name, seq<int>>, gates': map<Name, bool>, x: Name)
    requires TalliedFor(t, obs, points, gates, x) && x != o.model
    requires (x in points' <==> x in points) && (x in points ==> points'[x] == points[x])
    requires (x in gates' <==> x in gates) && (x in gates ==> gates'[x] == gates[x])
    ensures TalliedFor(t, obs + [o], points', gates', x)
  {
    ModelsOneMore(obs, o);
    AboutOneMore(obs, o, x);
    assert About(obs, x) + [] == About(obs, x);
  }

  lemma TalliedOwn(t: Terms, obs: seq<Observation>, points: map<Name, seq<int>>, gates: map<Name, bool>, o: Observation,
                   points': map<Name, seq<int>>, gates': map<Name, bool>)
    requires TalliedFor(t, obs, points, gates, o.model)
    requires o.model in points' && o.model in gates'
    requires points'[o.model]
          == (if o.model in points then points[o.model] else []) + Values(t.dimensions, o.rubric)
    requires gates'[o.model] == ((if o.model in gates then gates[o.model] else true) && !o.rubric.critical)
    ensures TalliedFor(t, obs + [o], points', gates', o.model)
  {
    ModelsOneMore(obs, o);
    AboutOneMore(obs, o, o.model);
    PointsOneMore(t, About(obs, o.model), o);
    if o.model !in Models(obs) { NothingAbout(obs, o.model); }
  }

  lemma SameModels(t: Terms, obs: seq<Observation>, points: map<Name, seq<int>>, gates: map<Name, bool>)
    requires Tallied(t, obs, points, gates)
    ensures points.Keys == Models(obs) && gates.Keys == Models(obs)
  {
    forall m ensures (m in points <==> m in Models(obs)) && (m in gates <==> m in Models(obs)) {
      assert TalliedFor(t, obs, points, gates, m);
    }
  }

  lemma TalliedQuality(t: Terms, obs: seq<Observation>, points: map<Name, seq<int>>, gates: map<Name, bool>)
    requires Tallied(t, obs, points, gates) && points.Keys == Models(obs)
    ensures (map m | m in points :: Average(points[m])) == Qualities(t, obs, Models(obs))
  {
    forall m | m in points ensures Average(points[m]) == Qualities(t, obs, Models(obs))[m] {
      assert TalliedFor(t, obs, points, gates, m);
    }
  }

  lemma TalliedGates(t: Terms, obs: seq<Observation>, points: map<Name, seq<int>>, gates: map<Name, bool>)
    requires Tallied(t, obs, points, gates) && gates.Keys == Models(obs)
    ensures gates == Gates(obs, Models(obs))
  {
    forall m | m in gates ensures gates[m] == Gates(obs, Models(obs))[m] {
      assert TalliedFor(t, obs, points, gates, m);
    }
  }

  /** The finished dictionaries are the scores. */
  lemma TalliedScores(t: Terms, obs: seq<Observation>, points: map<Name, seq<int>>, gates: map<Name, bool>)
    requires Tallied(t, obs, points, gates)
    ensures Scores(map m | m in points :: Average(points[m]), gates) == ScoreOf(t, obs)
  {
    SameModels(t, obs, points, gates);
    TalliedQuality(t, obs, points, gates);
    TalliedGates(t, obs, points, gates);
  }

  /** All labels of one pair. */
  method TallyPair(t: Terms, ghost obs: seq<Observation>, points: map<Name, seq<int>>, gates: map<Name, bool>,
                   scores: map<Label, Rubric>, revealed: seq<Name>)
    returns (points': map<Name, seq<int>>, gates': map<Name, bool>)
    requires Tallied(t, obs, points, gates) && PairValid(t, scores, revealed)
    ensures Tallied(t, obs + Observed(scores, revealed), points', gates')
  {
    ghost var added := Observed(scores, revealed);
    points', gates' := points, gates;
    assert obs + added[..0] == obs;
    for letter := 0 to |revealed|
      invariant Tallied(t, obs + added[..letter], points', gates')
    {
      var o := Observation(revealed[letter], scores[letter]);
      assert (obs + added[..letter]) + [o] == obs + added[..letter + 1];
      points', gates' := Tally(t, obs + added[..letter], points', gates', o);
    }
    assert added[..|revealed|] == added;
  }

  /** What is still to collect completes what was collected so far. */
  ghost predicate Remaining(all: Option<seq<Observation>>, obs: seq<Observation>, rest: Option<seq<Observation>>) {
    all == if rest.None? then None else Some(obs + rest.value)
  }

  lemma RemainingStep(all: Option<seq<Observation>>, obs: seq<Observation>, next: seq<Observation>,
                      rest: Option<seq<Observation>>)
    requires Remaining(all, obs, if rest.None? then None else Some(next + rest.value))
    ensures Remaining(all, obs + next, rest)
  {
    if rest.Some? { assert obs + (next + rest.value) == (obs + next) + rest.value; }
  }

  method EvaluateBlindReviews(t: Terms, reviews: seq<Review>, keys: seq<Key>) returns (r: Option<Scores>)
    ensures r == Evaluate(t, reviews, keys)
  {
    if !SamePairs(reviews, keys) { return None; }
    var pairs := PairsOf(keys);
    var points: map<Name, seq<int>>, gates: map<Name, bool> := map[], map[];
    ghost var all := Collect(t, reviews, keys, pairs);
    ghost var obs: seq<Observation> := [];
    assert all.Some? ==> obs + all.value == all.value;
    while pairs != []
      invariant Remaining(all, obs, Collect(t, reviews, keys, pairs))
      invariant Tallied(t, obs, points, gates)
      decreases |pairs|
    {
      var review, key := ReviewOf(reviews, pairs[0]), KeyOf(keys, pairs[0]);
      if review.None? || key.None? || review.value.scores.None? || key.value.revealed.None? { return None; }
      var scores, revealed := review.value.scores.value, key.value.revealed.value;
      if !PairValid(t, scores, revealed) { return None; }
      points, gates := TallyPair(t, obs, points, gates, scores, revealed);
      RemainingStep(all, obs, Observed(scores, revealed), Collect(t, reviews, keys, pairs[1..]));
      obs := obs + Observed(scores, revealed);
      pairs := pairs[1..];
    }
    assert obs + [] == obs;
    TalliedScores(t, obs, points, gates);
    r := Some(Scores(map m | m in points :: Average(points[m]), gates));
  }
}
