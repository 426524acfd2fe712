/** Choosing a winner of a hard profile: gates per candidate, a total ranking, and a deterministic
    rule for practical ties. */
module Selection {
  import opened Prelude
  import opened Sorting
  import opened Grouping
  import opened Percentiles

  datatype Row = Row(
    model: Name, caseId: Name, completed: bool, hardGate: bool, score: real, toolSequence: bool, toolArguments: bool,
    success: bool, jsonOk: bool, schemaOk: bool, criticalOk: bool, leaksPii: bool, correct: nat, total: nat,
    latency: real, cost: real)

  /** The profile: its baseline, its cases, and the deviation of a bag of scores. */
  datatype Terms = Terms(core: bool, baseline: Name, cases: seq<Name>, deviation: multiset<real> -> real)

  datatype Ranked = Ranked(model: Name, quality: real, spread: real, tools: real, p95: real, cost: real)

  datatype Outcome = Winner | PracticalTie | NoSafeReplacement

  datatype Decision = Decision(outcome: Outcome, winner: Option<Name>)

  const ROW_MODEL: Row -> Name := (r: Row) => r.model
  const ROW_SCORE: Row -> real := (r: Row) => r.score
  const ROW_LATENCY: Row -> real := (r: Row) => r.latency
  const ROW_COST: Row -> real := (r: Row) => r.cost
  const ROW_CORRECT: Row -> real := (r: Row) => r.correct as real
  const ROW_TOTAL: Row -> real := (r: Row) => r.total as real
  const ROW_SHARE: Row -> real := (r: Row) => r.correct as real / (if r.total == 0 then 1 else r.total) as real
  const ROW_TOOLS: Row -> real :=
    (r: Row) => ((if r.toolSequence then 1.0 else 0.0) + (if r.toolArguments then 1.0 else 0.0)) / 2.0

  function InCase(c: Name): Row -> bool { (r: Row) => r.caseId == c }

  function Mean(s: seq<real>): real { if s == [] then 0.0 else Sum(s) / |s| as real }

  function MaxOf(s: seq<real>): real { if s == [] then 0.0 else if |s| == 1 then s[0] else Max(s[0], MaxOf(s[1..])) }

  function Scores(rows: seq<Row>, c: Name): seq<real> { MapSeq(ROW_SCORE, Filter(InCase(c), rows)) }

  /** The middle one of three scores. */
  function MedianOf(rows: seq<Row>): Name -> real {
    (c: Name) => var s := Sort(Scores(rows, c), ASCENDING); if |s| == 3 then s[1] else 0.0
  }

  function SpreadOf(t: Terms, rows: seq<Row>): Name -> real {
    (c: Name) => t.deviation(multiset(Scores(rows, c)))
  }

  /** The gates of the core profile, over one candidate's rows. */
  predicate CoreGates(t: Terms, rows: seq<Row>) {
    && (forall i :: 0 <= i < |rows| ==> rows[i].completed && rows[i].hardGate)
    && (forall i :: 0 <= i < |t.cases| ==>
          |Scores(rows, t.cases[i])| == 3 && MedianOf(rows)(t.cases[i]) >= 20.0)
    && Mean(MapSeq(MedianOf(rows), t.cases)) >= 24.0
  }

  function Accuracy(rows: seq<Row>): real {
    var total := Sum(MapSeq(ROW_TOTAL, rows));
    if total == 0.0 then 0.0 else Sum(MapSeq(ROW_CORRECT, rows)) / total
  }

  predicate RowSafe(r: Row) { r.completed && r.success && r.jsonOk && r.schemaOk && r.criticalOk && !r.leaksPii }

  /** The gates of the background profile. */
  predicate BackgroundGates(rows: seq<Row>) {
    (forall i :: 0 <= i < |rows| ==> RowSafe(rows[i])) && Accuracy(rows) >= 0.95
  }

  predicate Gates(t: Terms, rows: seq<Row>) { if t.core then CoreGates(t, rows) else BackgroundGates(rows) }

  function P95(rows: seq<Row>): real {
    var p := Percentile(MapSeq(ROW_LATENCY, rows), 0.95);
    if p.None? then 0.0 else p.value
  }

  function Cost(rows: seq<Row>): real { Sum(MapSeq(ROW_COST, rows)) }

  function ToolUse(t: Terms, rows: seq<Row>): real { if t.core then Mean(MapSeq(ROW_TOOLS, rows)) else 1.0 }

  function Quality(t: Terms, rows: seq<Row>): real {
    if t.core then Mean(MapSeq(MedianOf(rows), t.cases)) else Accuracy(rows) * 30.0
  }

  function Variation(t: Terms, rows: seq<Row>): real {
    if t.core then MaxOf(MapSeq(SpreadOf(t, rows), t.cases))
    else if |rows| > 1 then t.deviation(multiset(MapSeq(ROW_SHARE, rows))) * 30.0
    else 0.0
  }

  /** The figures a candidate is ranked by. */
  function Figures(t: Terms, m: Name, rows: seq<Row>): Ranked {
    Ranked(m, Quality(t, rows), Variation(t, rows), ToolUse(t, rows), P95(rows), Cost(rows))
  }

  /** Best quality first, then least spread, best tool use, least latency, least cost, name. */
  predicate Before(a: Ranked, b: Ranked) {
    if a.quality != b.quality then a.quality > b.quality
    else if a.spread != b.spread then a.spread < b.spread
    else if a.tools != b.tools then a.tools > b.tools
    else if a.p95 != b.p95 then a.p95 < b.p95
    else if a.cost != b.cost then a.cost < b.cost
    else a.model <= b.model
  }

  const RANKING: (Ranked, Ranked) -> bool := (a: Ranked, b: Ranked) => Before(a, b)

  function RowsOf(rows: seq<Row>, m: Name): seq<Row> { Filter(KeyIs(ROW_MODEL, m), rows) }

  /** The candidates that pass every gate, with their figures. */
  function Entries(t: Terms, ms: seq<Name>, rows: seq<Row>): seq<Ranked> {
    if ms == [] then [] else EntryOf(t, ms[0], rows) + Entries(t, ms[1..], rows)
  }

  function EntryOf(t: Terms, m: Name, rows: seq<Row>): seq<Ranked> {
    if Gates(t, RowsOf(rows, m)) then [Figures(t, m, RowsOf(rows, m))] else []
  }

  /** The rule over the ranked list. */
  function Decide(t: Terms, ranked: seq<Ranked>): Decision {
    if ranked == [] then Decision(NoSafeReplacement, None)
    else if |ranked| == 1 then Decision(Winner, Some(ranked[0].model))
    else
      var gap := ranked[0].quality - ranked[1].quality;
      if gap < 1.0 || gap < Max(ranked[0].spread, ranked[1].spread) then
        var safe := exists i :: 0 <= i < |ranked| && ranked[i].model == t.baseline;
        Decision(PracticalTie, Some(if safe then t.baseline else ranked[0].model))
      else Decision(Winner, Some(ranked[0].model))
  }

  function Select(t: Terms, rows: seq<Row>): Decision {
    Decide(t, Sort(Entries(t, KeysOf(ROW_MODEL, rows), rows), RANKING))
  }

  // ----- as the program runs it -----

  lemma {:induction false} EntriesAppend(t: Terms, a: seq<Name>, m: Name, rows: seq<Row>)
    ensures Entries(t, a + [m], rows) == Entries(t, a, rows) + EntryOf(t, m, rows)
  {
    if a == [] {
      assert [] + [m] == [m] && [m][1..] == [];
    } else {
      assert (a + [m])[1..] == a[1..] + [m] && (a + [m])[0] == a[0];
      EntriesAppend(t, a[1..], m, rows);
      Associative(EntryOf(t, a[0], rows), Entries(t, a[1..], rows), EntryOf(t, m, rows));
    }
  }

  lemma Associative(a: seq<Ranked>, b: seq<Ranked>, c: seq<Ranked>)
    ensures a + (b + c) == (a + b) + c
  {
  }

  /** Groups the rows, ranks the candidates that pass, sorts and decides. */
  method SelectWinner(t: Terms, rows: seq<Row>) returns (d: Decision)
    ensures d == Select(t, rows)
  {
    var order, byModel := GroupBy(ROW_MODEL, rows);
    assert forall m :: m in order ==> m in byModel && byModel[m] == RowsOf(rows, m);
    var ranked := RankPassing(t, rows, order, byModel);
    ranked := Sort(ranked, RANKING);
    d := Decide(t, ranked);
  }

  method RankPassing(t: Terms, ghost rows: seq<Row>, order: seq<Name>, byModel: map<Name, seq<Row>>)
    returns (ranked: seq<Ranked>)
    requires forall m :: m in order ==> m in byModel && byModel[m] == RowsOf(rows, m)
    ensures ranked == Entries(t, order, rows)
  {
    ranked := [];
    for k := 0 to |order|
      invariant ranked == Entries(t, order[..k], rows)
    {
      var m := order[k];
      assert m in order;
      EntriesAppend(t, order[..k], m, rows);
      assert order[..k + 1] == order[..k] + [m];
      if Gates(t, byModel[m]) { ranked := ranked + [Figures(t, m, byModel[m])]; }
    }
    assert order[..|order|] == order;
  }
}
