/** Blinding cancels out: whatever permutation hides the candidates, evaluating the blind reviews
    gives every model the scores of an unblinded review. */
module BlindingLaws {
  import opened Prelude
  import opened Sorting
  import opened Grouping
  import opened Blinding

  // ----- scores depend on the bag of observations -----

  function Total(t: Terms): Observation -> real {
    (o: Observation) => SumInt(Values(t.dimensions, o.rubric)) as real
  }

  function Size(t: Terms): Observation -> real { (o: Observation) => |Values(t.dimensions, o.rubric)| as real }

  lemma {:induction false} SumIntAppend(a: seq<int>, b: seq<int>)
    ensures SumInt(a + b) == SumInt(a) + SumInt(b)
  {
    if a == [] {
      assert a + b == b;
    } else {
      assert (a + b)[1..] == a[1..] + b;
      SumIntAppend(a[1..], b);
    }
  }

  lemma {:induction false} SumAppend(a: seq<real>, b: seq<real>)
    ensures Sum(a + b) == Sum(a) + Sum(b)
  {
    if a == [] {
      assert a + b == b;
    } else {
      assert (a + b)[1..] == a[1..] + b;
      SumAppend(a[1..], b);
    }
  }

  lemma SumOfOneMore(f: Observation -> real, before: seq<Observation>, o: Observation)
    ensures Sum(MapSeq(f, before + [o])) == Sum(MapSeq(f, before)) + f(o)
  {
    MapConcat(f, before, [o]);
    assert MapSeq(f, [o]) == [f(o)] && [f(o)][1..] == [];
    SumAppend(MapSeq(f, before), [f(o)]);
  }

  lemma {:induction false} PointsAreSums(t: Terms, obs: seq<Observation>)
    ensures SumInt(Points(t, obs)) as real == Sum(MapSeq(Total(t), obs))
  {
    if obs != [] {
      var before, o := obs[..|obs| - 1], obs[|obs| - 1];
      assert obs == before + [o];
      PointsAreSums(t, before);
      SumIntAppend(Points(t, before), Values(t.dimensions, o.rubric));
      SumOfOneMore(Total(t), before, o);
    }
  }

  lemma {:induction false} PointsAreCounted(t: Terms, obs: seq<Observation>)
    ensures |Points(t, obs)| as real == Sum(MapSeq(Size(t), obs))
  {
    if obs != [] {
      var before, o := obs[..|obs| - 1], obs[|obs| - 1];
      assert obs == before + [o];
      PointsAreCounted(t, before);
      SumOfOneMore(Size(t), before, o);
    }
  }

  lemma AveragePermutes(t: Terms, a: seq<Observation>, b: seq<Observation>)
    requires multiset(a) == multiset(b)
    ensures Average(Points(t, a)) == Average(Points(t, b))
  {
    PointsAreSums(t, a);
    PointsAreSums(t, b);
    PointsAreCounted(t, a);
    PointsAreCounted(t, b);
    MapPermutes(Total(t), a, b);
    MapPermutes(Size(t), a, b);
    SumPermutes(MapSeq(Total(t), a), MapSeq(Total(t), b));
    SumPermutes(MapSeq(Size(t), a), MapSeq(Size(t), b));
  }

  lemma AboutPermutes(a: seq<Observation>, b: seq<Observation>, m: Name)
    requires multiset(a) == multiset(b)
    ensures multiset(About(a, m)) == multiset(About(b, m))
  {
    FilterPermutes(KeyIs(OBSERVED_MODEL, m), a, b);
  }

  lemma NoneCriticalPermutes(a: seq<Observation>, b: seq<Observation>)
    requires multiset(a) == multiset(b)
    ensures NoneCritical(a) <==> NoneCritical(b)
  {
    SameElements(a, b);
    assert forall i :: 0 <= i < |a| ==> a[i] in b;
    assert forall i :: 0 <= i < |b| ==> b[i] in a;
  }

  lemma QualitiesPermute(t: Terms, a: seq<Observation>, b: seq<Observation>, ms: set<Name>)
    requires multiset(a) == multiset(b)
    ensures Qualities(t, a, ms) == Qualities(t, b, ms)
  {
    forall m ensures Average(Points(t, About(a, m))) == Average(Points(t, About(b, m))) {
      AboutPermutes(a, b, m);
      AveragePermutes(t, About(a, m), About(b, m));
    }
  }

  lemma GatesPermute(t: Terms, a: seq<Observation>, b: seq<Observation>, ms: set<Name>)
    requires multiset(a) == multiset(b)
    ensures Gates(a, ms) == Gates(b, ms)
  {
    forall m ensures NoneCritical(About(a, m)) <==> NoneCritical(About(b, m)) {
      AboutPermutes(a, b, m);
      NoneCriticalPermutes(About(a, m), About(b, m));
    }
  }

  lemma ScorePermutes(t: Terms, a: seq<Observation>, b: seq<Observation>)
    requires multiset(a) == multiset(b)
    ensures ScoreOf(t, a) == ScoreOf(t, b)
  {
    SameElements(a, b);
    assert Models(a) == Models(b);
    QualitiesPermute(t, a, b, Models(a));
    GatesPermute(t, a, b, Models(a));
  }

  // ----- a blinded battle of reviews -----

  /** One pair to be reviewed: its candidates' answers, and the drawn order. */
  datatype Session = Session(id: PairId, names: seq<Name>, answers: map<Name, Answer>, order: seq<Name>)

  ghost predicate SessionOk(s: Session) {
    && NoDup(s.names) && (forall m :: m in s.names <==> m in s.answers)
    && multiset(s.order) == multiset(s.names) && 2 <= |s.names| <= 26
  }

  /** A reviewer sees a pair and an answer, never a model. */
  type Reviewer = (PairId, Answer) -> Rubric

  function AnswerOf(s: Session, m: Name): Answer { if m in s.answers then s.answers[m] else 0 }

  /** What the reviewer, seeing only letters and answers, fills in. */
  function BlindScores(s: Session, judge: Reviewer): map<Label, Rubric> {
    map letter: Label | letter in Letters(|s.order|) :: judge(s.id, AnswerOf(s, s.order[letter]))
  }

  function BlindReview(s: Session, judge: Reviewer): Review { Review(s.id, Some(BlindScores(s, judge))) }

  function KeyRow(s: Session): Key { Key(s.id, Some(s.order)) }

  /** This is a review of the pair the builder hands out, and the key it keeps. */
  lemma ReviewedAsBuilt(s: Session, judge: Reviewer)
    requires SessionOk(s)
    ensures NoDup(s.order) && forall m :: m in s.order <==> m in s.answers
    ensures var p := BuildBlindPair(s.id, s.answers, s.order, 32);
            && p.Some? && KeyRow(s) == Key(p.value.id, Some(p.value.revealed))
            && BlindScores(s, judge).Keys == p.value.answers.Keys
            && forall letter: Label :: letter in p.value.answers ==>
                 BlindScores(s, judge)[letter] == judge(p.value.id, p.value.answers[letter])
  {
    NoDupPermutes(s.names, s.order);
    SameElements(s.names, s.order);
    OrderIsCovered(s.answers, s.order);
  }

  /** What the reviewer thinks of a model's answer, with the names in view. */
  function OpenObservation(s: Session, judge: Reviewer): Name -> Observation {
    (m: Name) => Observation(m, judge(s.id, AnswerOf(s, m)))
  }

  /** All observations of an open review. */
  function OpenReviews(ss: seq<Session>, judge: Reviewer): seq<Observation> { OpenFrom(ss, judge, 0) }

  ghost predicate AllOk(ss: seq<Session>) { forall i :: 0 <= i < |ss| ==> SessionOk(ss[i]) }

  ghost predicate DistinctPairs(ss: seq<Session>) {
    forall i, j :: 0 <= i < j < |ss| ==> ss[i].id != ss[j].id
  }

  function KeyRows(ss: seq<Session>): (ks: seq<Key>)
    ensures |ks| == |ss| && forall i :: 0 <= i < |ss| ==> ks[i] == KeyRow(ss[i])
  {
    seq(|ss|, i requires 0 <= i < |ss| => KeyRow(ss[i]))
  }

  /** The reviews are those of the sessions, in any order. */
  ghost predicate Submitted(ss: seq<Session>, judge: Reviewer, reviews: seq<Review>) {
    && (forall i :: 0 <= i < |ss| ==> BlindReview(ss[i], judge) in reviews)
    && (forall r :: r in reviews ==> exists i :: 0 <= i < |ss| && r == BlindReview(ss[i], judge))
  }

  ghost predicate RubricsValid(t: Terms, judge: Reviewer) { forall id, answer :: RubricValid(t, judge(id, answer)) }

  lemma {:induction false} ReviewFound(reviews: seq<Review>, r: Review)
    requires r in reviews && forall q :: q in reviews && q.pair == r.pair ==> q == r
    ensures ReviewOf(reviews, r.pair) == Some(r)
  {
    var last := reviews[|reviews| - 1];
    assert last in reviews;
    if last.pair != r.pair {
      assert reviews == reviews[..|reviews| - 1] + [last];
      ReviewFound(reviews[..|reviews| - 1], r);
    }
  }

  lemma {:induction false} KeyFound(keys: seq<Key>, k: Key)
    requires k in keys && forall q :: q in keys && q.pair == k.pair ==> q == k
    ensures KeyOf(keys, k.pair) == Some(k)
  {
    var last := keys[|keys| - 1];
    assert last in keys;
    if last.pair != k.pair {
      assert keys == keys[..|keys| - 1] + [last];
      KeyFound(keys[..|keys| - 1], k);
    }
  }

  lemma ObservedIsOpen(s: Session, judge: Reviewer)
    ensures Observed(BlindScores(s, judge), s.order) == MapSeq(OpenObservation(s, judge), s.order)
  {
    var xs, ys := Observed(BlindScores(s, judge), s.order), MapSeq(OpenObservation(s, judge), s.order);
    forall i | 0 <= i < |s.order| ensures xs[i] == ys[i] {
      assert i in Letters(|s.order|);
    }
  }

  /** One revealed pair shows what an open review of it would have. */
  lemma RevealedPair(t: Terms, s: Session, judge: Reviewer)
    requires multiset(s.order) == multiset(s.names) && RubricsValid(t, judge)
    ensures PairValid(t, BlindScores(s, judge), s.order)
    ensures multiset(Observed(BlindScores(s, judge), s.order)) == multiset(MapSeq(OpenObservation(s, judge), s.names))
  {
    ObservedIsOpen(s, judge);
    MapPermutes(OpenObservation(s, judge), s.order, s.names);
  }

  /** Review and key of session `i` are found under its pair. */
  ghost predicate Found(ss: seq<Session>, judge: Reviewer, reviews: seq<Review>, keys: seq<Key>, i: nat)
    requires i < |ss|
  {
    ReviewOf(reviews, ss[i].id) == Some(BlindReview(ss[i], judge)) && KeyOf(keys, ss[i].id) == Some(KeyRow(ss[i]))
  }

  lemma ReviewIsFound(ss: seq<Session>, judge: Reviewer, reviews: seq<Review>, i: nat)
    requires DistinctPairs(ss) && Submitted(ss, judge, reviews) && i < |ss|
    ensures ReviewOf(reviews, ss[i].id) == Some(BlindReview(ss[i], judge))
  {
    var r := BlindReview(ss[i], judge);
    forall q | q in reviews && q.pair == r.pair ensures q == r {
      var j :| 0 <= j < |ss| && q == BlindReview(ss[j], judge);
      assert ss[j].id == ss[i].id;
    }
    ReviewFound(reviews, r);
  }

  lemma KeyIsFound(ss: seq<Session>, i: nat)
    requires DistinctPairs(ss) && i < |ss|
    ensures KeyOf(KeyRows(ss), ss[i].id) == Some(KeyRow(ss[i]))
  {
    var keys := KeyRows(ss);
    assert keys[i] == KeyRow(ss[i]);
    forall q | q in keys && q.pair == ss[i].id ensures q == keys[i] {
      var j :| 0 <= j < |keys| && q == keys[j];
      assert ss[j].id == ss[i].id;
    }
    KeyFound(keys, keys[i]);
  }

  lemma AllFound(ss: seq<Session>, judge: Reviewer, reviews: seq<Review>)
    requires DistinctPairs(ss) && Submitted(ss, judge, reviews)
    ensures forall i :: 0 <= i < |ss| ==> Found(ss, judge, reviews, KeyRows(ss), i)
  {
    forall i | 0 <= i < |ss| ensures Found(ss, judge, reviews, KeyRows(ss), i) {
      ReviewIsFound(ss, judge, reviews, i);
      KeyIsFound(ss, i);
    }
  }

  function IdsFrom(ss: seq<Session>, i: nat): seq<PairId>
    requires i <= |ss|
    decreases |ss| - i
  {
    if i == |ss| then [] else [ss[i].id] + IdsFrom(ss, i + 1)
  }

  function OpenFrom(ss: seq<Session>, judge: Reviewer, i: nat): seq<Observation>
    requires i <= |ss|
    decreases |ss| - i
  {
    if i == |ss| then [] else MapSeq(OpenObservation(ss[i], judge), ss[i].names) + OpenFrom(ss, judge, i + 1)
  }

  ghost predicate Permuted(ss: seq<Session>) {
    forall i :: 0 <= i < |ss| ==> multiset(ss[i].order) == multiset(ss[i].names)
  }

  lemma {:induction false} CollectOpen(t: Terms, ss: seq<Session>, judge: Reviewer, reviews: seq<Review>,
                                       keys: seq<Key>, i: nat)
    requires Permuted(ss) && RubricsValid(t, judge) && i <= |ss|
    requires forall k :: 0 <= k < |ss| ==> Found(ss, judge, reviews, keys, k)
    ensures var obs := Collect(t, reviews, keys, IdsFrom(ss, i));
            obs.Some? && multiset(obs.value) == multiset(OpenFrom(ss, judge, i))
    decreases |ss| - i
  {
    if i < |ss| {
      assert Found(ss, judge, reviews, keys, i);
      CollectOpen(t, ss, judge, reviews, keys, i + 1);
      CollectOneMore(t, ss, judge, reviews, keys, i, Collect(t, reviews, keys, IdsFrom(ss, i + 1)).value);
    }
  }

  lemma CollectOneMore(t: Terms, ss: seq<Session>, judge: Reviewer, reviews: seq<Review>, keys: seq<Key>, i: nat,
                       rest: seq<Observation>)
    requires i < |ss| && multiset(ss[i].order) == multiset(ss[i].names) && RubricsValid(t, judge)
    requires Found(ss, judge, reviews, keys, i) && Collect(t, reviews, keys, IdsFrom(ss, i + 1)) == Some(rest)
    requires multiset(rest) == multiset(OpenFrom(ss, judge, i + 1))
    ensures var obs := Collect(t, reviews, keys, IdsFrom(ss, i));
            obs.Some? && multiset(obs.value) == multiset(OpenFrom(ss, judge, i))
  {
    RevealedPair(t, ss[i], judge);
    CollectFirst(t, ss, judge, reviews, keys, i, rest);
    SameBags(Observed(BlindScores(ss[i], judge), ss[i].order), rest,
             MapSeq(OpenObservation(ss[i], judge), ss[i].names), OpenFrom(ss, judge, i + 1));
  }

  lemma SameBags(a: seq<Observation>, b: seq<Observation>, c: seq<Observation>, d: seq<Observation>)
    requires multiset(a) == multiset(c) && multiset(b) == multiset(d)
    ensures multiset(a + b) == multiset(c + d)
  {
  }

  lemma CollectFirst(t: Terms, ss: seq<Session>, judge: Reviewer, reviews: seq<Review>, keys: seq<Key>, i: nat,
                     rest: seq<Observation>)
    requires i < |ss| && Found(ss, judge, reviews, keys, i) && PairValid(t, BlindScores(ss[i], judge), ss[i].order)
    requires Collect(t, reviews, keys, IdsFrom(ss, i + 1)) == Some(rest)
    ensures Collect(t, reviews, keys, IdsFrom(ss, i)) == Some(Observed(BlindScores(ss[i], judge), ss[i].order) + rest)
  {
    assert IdsFrom(ss, i)[0] == ss[i].id && IdsFrom(ss, i)[1..] == IdsFrom(ss, i + 1);
  }

  lemma {:induction false} IdsAt(ss: seq<Session>, i: nat, k: nat)
    requires i <= k <= |ss|
    ensures |IdsFrom(ss, i)| == |ss| - i
    ensures k < |ss| ==> IdsFrom(ss, i)[k - i] == ss[k].id
    decreases |ss| - i
  {
    if i < |ss| { IdsAt(ss, i + 1, if i < k then k else i + 1); }
  }

  lemma {:induction false} FirstSeenOfDistinct(s: seq<PairId>)
    requires NoDup(s)
    ensures FirstSeen(s) == s
  {
    if s != [] {
      var before := s[..|s| - 1];
      assert forall k :: 0 <= k < |before| ==> before[k] == s[k];
      FirstSeenOfDistinct(before);
      assert s == before + [s[|s| - 1]];
    }
  }

  lemma PairsAreIds(ss: seq<Session>)
    requires DistinctPairs(ss)
    ensures PairsOf(KeyRows(ss)) == IdsFrom(ss, 0)
  {
    var ids := MapSeq((k: Key) => k.pair, KeyRows(ss));
    forall k | 0 <= k <= |ss| ensures |IdsFrom(ss, 0)| == |ss| && (k < |ss| ==> IdsFrom(ss, 0)[k] == ss[k].id) {
      IdsAt(ss, 0, k);
    }
    IdsAt(ss, 0, 0);
    assert ids == IdsFrom(ss, 0);
    FirstSeenOfDistinct(ids);
  }

  lemma PairsMatch(ss: seq<Session>, judge: Reviewer, reviews: seq<Review>)
    requires Submitted(ss, judge, reviews)
    ensures SamePairs(reviews, KeyRows(ss))
  {
    var keys := KeyRows(ss);
    forall r | r in reviews ensures r.pair in KeyedPairs(keys) {
      var i :| 0 <= i < |ss| && r == BlindReview(ss[i], judge);
      assert keys[i].pair == r.pair && keys[i] in keys;
    }
    forall k | k in keys ensures k.pair in ReviewedPairs(reviews) {
      var i :| 0 <= i < |keys| && keys[i] == k;
      assert BlindReview(ss[i], judge) in reviews && BlindReview(ss[i], judge).pair == k.pair;
    }
  }

  /** Whatever orders were drawn to hide the candidates, and in whatever order the reviews came
      back, the evaluation is that of an open review: the same quality and the same hard gate for
      every model. */
  lemma BlindingCancels(t: Terms, ss: seq<Session>, judge: Reviewer, reviews: seq<Review>)
    requires AllOk(ss) && DistinctPairs(ss) && RubricsValid(t, judge) && Submitted(ss, judge, reviews)
    ensures Evaluate(t, reviews, KeyRows(ss)) == Some(ScoreOf(t, OpenReviews(ss, judge)))
  {
    PairsMatch(ss, judge, reviews);
    PairsAreIds(ss);
    AllFound(ss, judge, reviews);
    CollectOpen(t, ss, judge, reviews, KeyRows(ss), 0);
    ScorePermutes(t, Collect(t, reviews, KeyRows(ss), IdsFrom(ss, 0)).value, OpenReviews(ss, judge));
  }

  // ----- what is refused -----

  ghost predicate PairAccepted(t: Terms, reviews: seq<Review>, keys: seq<Key>, pair: PairId) {
    var r, k := ReviewOf(reviews, pair), KeyOf(keys, pair);
    && r.Some? && k.Some? && r.value.scores.Some? && k.value.revealed.Some?
    && PairValid(t, r.value.scores.value, k.value.revealed.value)
  }

  lemma {:induction false} CollectIff(t: Terms, reviews: seq<Review>, keys: seq<Key>, pairs: seq<PairId>)
    ensures Collect(t, reviews, keys, pairs).Some?
       <==> forall i :: 0 <= i < |pairs| ==> PairAccepted(t, reviews, keys, pairs[i])
  {
    if pairs != [] {
      CollectIff(t, reviews, keys, pairs[1..]);
      assert pairs == [pairs[0]] + pairs[1..];
    }
  }

  /** An evaluation is refused exactly when the reviewed pairs are not the keyed ones, or some
      pair lacks scores or a reveal mapping, has other labels than its key, or carries an invalid rubric. */
  lemma EvaluatedIff(t: Terms, reviews: seq<Review>, keys: seq<Key>)
    ensures Evaluate(t, reviews, keys).Some? <==>
              SamePairs(reviews, keys)
              && forall i :: 0 <= i < |PairsOf(keys)| ==> PairAccepted(t, reviews, keys, PairsOf(keys)[i])
  {
    CollectIff(t, reviews, keys, PairsOf(keys));
  }
}
