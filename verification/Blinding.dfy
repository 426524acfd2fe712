/** Blinded review: candidates hidden behind letters by a random permutation, and the evaluation
    that reveals them again. A label is the position of its letter. */
module Blinding {
  import opened Prelude
  import opened Grouping

  type Label = nat
  type Answer = nat
  type Dimension = nat

  datatype PairId = PairId(caseId: Name, repetition: int)

  datatype Pair = Pair(id: PairId, answers: map<Label, Answer>, revealed: seq<Name>)

  datatype Rubric = Rubric(scores: map<Dimension, int>, critical: bool, reason: string)

  datatype Review = Review(pair: PairId, scores: Option<map<Label, Rubric>>)

  datatype Key = Key(pair: PairId, revealed: Option<seq<Name>>)

  datatype Scores = Scores(quality: map<Name, real>, hardGates: map<Name, bool>)

  /** One rubric, with the model it is about. */
  datatype Observation = Observation(model: Name, rubric: Rubric)

  /** The review dimensions, and whether a reason says anything. */
  datatype Terms = Terms(dimensions: seq<Dimension>, speaks: string -> bool)

  /** The first `n` letters. */
  function Letters(n: nat): (r: set<Label>)
    ensures forall letter: Label :: letter in r <==> letter < n
  {
    if n == 0 then {} else Letters(n - 1) + {n - 1}
  }

  // ----- building -----

  /** Hides the candidates behind the first letters in the given order; none when there are fewer
      than two or more than 26, or too little entropy behind the order. */
  function BuildBlindPair(id: PairId, candidates: map<Name, Answer>, order: seq<Name>, entropyBytes: nat)
    : (r: Option<Pair>)
    requires NoDup(order) && forall m :: m in order <==> m in candidates
  {
    if |order| < 2 || |order| > 26 || entropyBytes < 16 then None
    else
      OrderIsCovered(candidates, order);
      Some(Pair(id, map letter: Label | letter in Letters(|order|) :: candidates[order[letter]], order))
  }

  lemma OrderIsCovered(candidates: map<Name, Answer>, order: seq<Name>)
    requires forall m :: m in order ==> m in candidates
    ensures forall i :: 0 <= i < |order| ==> order[i] in candidates
  {
    forall i | 0 <= i < |order| ensures order[i] in candidates {
      var m := order[i];
      assert m in order;
    }
  }

  /** Labels and models are in bijection, and each letter carries its model's answer. */
  lemma LabelsAreABijection(id: PairId, candidates: map<Name, Answer>, order: seq<Name>, entropyBytes: nat)
    requires NoDup(order) && forall m :: m in order <==> m in candidates
    requires BuildBlindPair(id, candidates, order, entropyBytes).Some?
    ensures var p := BuildBlindPair(id, candidates, order, entropyBytes).value;
            && (forall letter: nat :: letter in p.answers <==> letter < |p.revealed|)
            && (forall letter: nat :: letter < |p.revealed| ==>
                  p.revealed[letter] in candidates && p.answers[letter] == candidates[p.revealed[letter]])
            && (forall m :: m in candidates ==> exists letter: nat :: letter < |p.revealed| && p.revealed[letter] == m)
            && (forall i: nat, j: nat :: i < |p.revealed| && j < |p.revealed| && p.revealed[i] == p.revealed[j] ==>
                  i == j)
  {
    forall m | m in candidates ensures exists letter: nat :: letter < |order| && order[letter] == m {
      assert m in order;
    }
    assert forall letter: nat :: letter < |order| ==> order[letter] in order;
  }

  // ----- evaluating -----

  predicate RubricValid(t: Terms, r: Rubric) {
    && (r.critical ==> t.speaks(r.reason))
    && r.scores.Keys == (set d | d in t.dimensions)
    && forall d :: d in r.scores ==> 1 <= r.scores[d] <= 5
  }

  /** Every label of the key, and no other, carries a valid rubric. */
  predicate PairValid(t: Terms, scores: map<Label, Rubric>, revealed: seq<Name>) {
    && scores.Keys == Letters(|revealed|)
    && forall letter: nat :: letter < |revealed| ==> RubricValid(t, scores[letter])
  }

  function Observed(scores: map<Label, Rubric>, revealed: seq<Name>): seq<Observation>
    requires forall letter: nat :: letter < |revealed| ==> letter in scores
  {
    seq(|revealed|, letter requires 0 <= letter < |revealed| => Observation(revealed[letter], scores[letter]))
  }

  /** The last review, or key, of a pair: what a dictionary keyed by pair holds. */
  function ReviewOf(reviews: seq<Review>, pair: PairId): Option<Review> {
    if reviews == [] then None
    else if reviews[|reviews| - 1].pair == pair then Some(reviews[|reviews| - 1])
    else ReviewOf(reviews[..|reviews| - 1], pair)
  }

  function KeyOf(keys: seq<Key>, pair: PairId): Option<Key> {
    if keys == [] then None
    else if keys[|keys| - 1].pair == pair then Some(keys[|keys| - 1])
    else KeyOf(keys[..|keys| - 1], pair)
  }

  function PairsOf(keys: seq<Key>): seq<PairId> { FirstSeen(MapSeq((k: Key) => k.pair, keys)) }

  function ReviewedPairs(reviews: seq<Review>): set<PairId> { set r | r in reviews :: r.pair }

  function KeyedPairs(keys: seq<Key>): set<PairId> { set k | k in keys :: k.pair }

  predicate SamePairs(reviews: seq<Review>, keys: seq<Key>) { ReviewedPairs(reviews) == KeyedPairs(keys) }

  /** All observations, pair by pair and label by label; none on the first invalid pair. */
  function Collect(t: Terms, reviews: seq<Review>, keys: seq<Key>, pairs: seq<PairId>): Option<seq<Observation>>
  {
    if pairs == [] then Some([])
    else
      var r, k := ReviewOf(reviews, pairs[0]), KeyOf(keys, pairs[0]);
      if r.None? || k.None? || r.value.scores.None? || k.value.revealed.None? then None
      else
        var scores, revealed := r.value.scores.value, k.value.revealed.value;
        if !PairValid(t, scores, revealed) then None
        else
          var rest := Collect(t, reviews, keys, pairs[1..]);
          if rest.None? then None else Some(Observed(scores, revealed) + rest.value)
  }

  // ----- scoring -----

  const OBSERVED_MODEL: Observation -> Name := (o: Observation) => o.model

  function Models(obs: seq<Observation>): set<Name> { set o | o in obs :: o.model }

  function About(obs: seq<Observation>, m: Name): seq<Observation> { Filter(KeyIs(OBSERVED_MODEL, m), obs) }

  function Values(dims: seq<Dimension>, r: Rubric): seq<int> {
    if dims == [] then [] else [if dims[0] in r.scores then r.scores[dims[0]] else 0] + Values(dims[1..], r)
  }

  /** All points given to the observations of one model. */
  function Points(t: Terms, obs: seq<Observation>): seq<int> {
    if obs == [] then [] else Points(t, obs[..|obs| - 1]) + Values(t.dimensions, obs[|obs| - 1].rubric)
  }

  function SumInt(s: seq<int>): int { if s == [] then 0 else s[0] + SumInt(s[1..]) }

  function Average(points: seq<int>): real {
    if points == [] then 0.0 else SumInt(points) as real / (|points| * 5) as real
  }

  predicate NoneCritical(obs: seq<Observation>) { forall i :: 0 <= i < |obs| ==> !obs[i].rubric.critical }

  /** Quality as the share of the points that could be given, and the hard gate as the absence of
      critical failures. */
  function ScoreOf(t: Terms, obs: seq<Observation>): Scores {
    Scores(Qualities(t, obs, Models(obs)), Gates(obs, Models(obs)))
  }

  function Qualities(t: Terms, obs: seq<Observation>, ms: set<Name>): map<Name, real> {
    map m | m in ms :: Average(Points(t, About(obs, m)))
  }

  function Gates(obs: seq<Observation>, ms: set<Name>): map<Name, bool> {
    map m | m in ms :: NoneCritical(About(obs, m))
  }

  function Evaluate(t: Terms, reviews: seq<Review>, keys: seq<Key>): Option<Scores> {
    if !SamePairs(reviews, keys) then None
    else
      var obs := Collect(t, reviews, keys, PairsOf(keys));
      if obs.None? then None else Some(ScoreOf(t, obs.value))
  }
}
