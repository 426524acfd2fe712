/** The selection is a function of the bag of rows, its winner passes every gate, and a clear
    winner leads everybody else. */
module SelectionLaws {
  import opened Prelude
  import opened Sorting
  import opened Grouping
  import opened Percentiles
  import opened Selection

  // ----- figures do not depend on the order of rows -----

  lemma {:induction false} MapCongruent(f: Name -> real, g: Name -> real, s: seq<Name>)
    requires forall x :: f(x) == g(x)
    ensures MapSeq(f, s) == MapSeq(g, s)
  {
    if s != [] { MapCongruent(f, g, s[1..]); }
  }

  lemma ScoresPermute(a: seq<Row>, b: seq<Row>, c: Name)
    requires multiset(a) == multiset(b)
    ensures multiset(Scores(a, c)) == multiset(Scores(b, c)) && |Scores(a, c)| == |Scores(b, c)|
    ensures MedianOf(a)(c) == MedianOf(b)(c)
  {
    FilterPermutes(InCase(c), a, b);
    MapPermutes(ROW_SCORE, Filter(InCase(c), a), Filter(InCase(c), b));
    SameElements(Scores(a, c), Scores(b, c));
    AscendingIsTotalOrder();
    SortForgetsOrder(Scores(a, c), Scores(b, c), ASCENDING);
  }

  lemma SumOfPermutes(f: Row -> real, a: seq<Row>, b: seq<Row>)
    requires multiset(a) == multiset(b)
    ensures Sum(MapSeq(f, a)) == Sum(MapSeq(f, b)) && Mean(MapSeq(f, a)) == Mean(MapSeq(f, b))
  {
    MapPermutes(f, a, b);
    SumPermutes(MapSeq(f, a), MapSeq(f, b));
    SameElements(a, b);
  }

  lemma CaseFiguresPermute(t: Terms, a: seq<Row>, b: seq<Row>)
    requires multiset(a) == multiset(b)
    ensures MapSeq(MedianOf(a), t.cases) == MapSeq(MedianOf(b), t.cases)
    ensures MapSeq(SpreadOf(t, a), t.cases) == MapSeq(SpreadOf(t, b), t.cases)
  {
    forall c ensures MedianOf(a)(c) == MedianOf(b)(c) && SpreadOf(t, a)(c) == SpreadOf(t, b)(c) {
      ScoresPermute(a, b, c);
    }
    MapCongruent(MedianOf(a), MedianOf(b), t.cases);
    MapCongruent(SpreadOf(t, a), SpreadOf(t, b), t.cases);
  }

  lemma AllRowsPermute(p: Row -> bool, a: seq<Row>, b: seq<Row>)
    requires multiset(a) == multiset(b)
    ensures (forall i :: 0 <= i < |a| ==> p(a[i])) <==> (forall i :: 0 <= i < |b| ==> p(b[i]))
  {
    SameElements(a, b);
    assert forall i :: 0 <= i < |a| ==> a[i] in b;
    assert forall i :: 0 <= i < |b| ==> b[i] in a;
  }

  lemma GatesPermute(t: Terms, a: seq<Row>, b: seq<Row>)
    requires multiset(a) == multiset(b)
    ensures Gates(t, a) <==> Gates(t, b)
  {
    if t.core {
      AllRowsPermute((r: Row) => r.completed && r.hardGate, a, b);
      CaseFiguresPermute(t, a, b);
      forall c ensures |Scores(a, c)| == |Scores(b, c)| && MedianOf(a)(c) == MedianOf(b)(c) { ScoresPermute(a, b, c); }
    } else {
      AllRowsPermute((r: Row) => RowSafe(r), a, b);
      AccuracyPermutes(a, b);
    }
  }

  lemma P95Permutes(a: seq<Row>, b: seq<Row>)
    requires multiset(a) == multiset(b)
    ensures P95(a) == P95(b)
  {
    MapPermutes(ROW_LATENCY, a, b);
    PercentileForgetsOrder(MapSeq(ROW_LATENCY, a), MapSeq(ROW_LATENCY, b), 0.95);
  }

  lemma AccuracyPermutes(a: seq<Row>, b: seq<Row>)
    requires multiset(a) == multiset(b)
    ensures Accuracy(a) == Accuracy(b)
  {
    SumOfPermutes(ROW_TOTAL, a, b);
    SumOfPermutes(ROW_CORRECT, a, b);
  }

  lemma QualityPermutes(t: Terms, a: seq<Row>, b: seq<Row>)
    requires multiset(a) == multiset(b)
    ensures Quality(t, a) == Quality(t, b)
  {
    if t.core { CaseFiguresPermute(t, a, b); } else { AccuracyPermutes(a, b); }
  }

  lemma VariationPermutes(t: Terms, a: seq<Row>, b: seq<Row>)
    requires multiset(a) == multiset(b)
    ensures Variation(t, a) == Variation(t, b)
  {
    if t.core { CaseFiguresPermute(t, a, b); } else { MapPermutes(ROW_SHARE, a, b); }
    SameElements(a, b);
  }

  lemma FiguresPermute(t: Terms, m: Name, a: seq<Row>, b: seq<Row>)
    requires multiset(a) == multiset(b)
    ensures Figures(t, m, a) == Figures(t, m, b)
  {
    QualityPermutes(t, a, b);
    VariationPermutes(t, a, b);
    SumOfPermutes(ROW_COST, a, b);
    SumOfPermutes(ROW_TOOLS, a, b);
    P95Permutes(a, b);
  }

  // ----- entries -----

  /** A candidate is entered exactly when it is listed and passes its gates. */
  ghost predicate Entered(t: Terms, ms: seq<Name>, rows: seq<Row>, e: Ranked) {
    e.model in ms && Gates(t, RowsOf(rows, e.model)) && e == Figures(t, e.model, RowsOf(rows, e.model))
  }

  lemma FiguresName(t: Terms, m: Name, rows: seq<Row>)
    ensures Figures(t, m, rows).model == m
  {
  }

  lemma {:induction false} EntriesContents(t: Terms, ms: seq<Name>, rows: seq<Row>)
    requires NoDup(ms)
    ensures NoDup(Entries(t, ms, rows))
    ensures forall e :: e in Entries(t, ms, rows) <==> Entered(t, ms, rows, e)
  {
    if ms != [] {
      var m, rest := ms[0], ms[1..];
      assert ms == [m] + rest;
      assert forall i :: 0 <= i < |rest| ==> rest[i] == ms[i + 1];
      assert m !in rest;
      EntriesContents(t, rest, rows);
      FiguresName(t, m, RowsOf(rows, m));
      var head := if Gates(t, RowsOf(rows, m)) then [Figures(t, m, RowsOf(rows, m))] else [];
      NoDupAppend(head, Entries(t, rest, rows));
    }
  }

  lemma RankingIsTotalOrder()
    ensures TotalOrder(RANKING)
  {
  }

  // ----- the selection -----

  /** Every reordering of the rows leads to the same decision. */
  lemma SelectionForgetsOrder(t: Terms, a: seq<Row>, b: seq<Row>)
    requires multiset(a) == multiset(b)
    ensures Select(t, a) == Select(t, b)
  {
    var ms, ns := KeysOf(ROW_MODEL, a), KeysOf(ROW_MODEL, b);
    KeysOfContents(ROW_MODEL, a);
    KeysOfContents(ROW_MODEL, b);
    SameElements(a, b);
    EntriesContents(t, ms, a);
    EntriesContents(t, ns, b);
    forall e ensures Entered(t, ms, a, e) <==> Entered(t, ns, b, e) {
      FilterPermutes(KeyIs(ROW_MODEL, e.model), a, b);
      GatesPermute(t, RowsOf(a, e.model), RowsOf(b, e.model));
      FiguresPermute(t, e.model, RowsOf(a, e.model), RowsOf(b, e.model));
    }
    NoDupSameElements(Entries(t, ms, a), Entries(t, ns, b));
    RankingIsTotalOrder();
    SortForgetsOrder(Entries(t, ms, a), Entries(t, ns, b), RANKING);
  }

  ghost predicate HasRow(rows: seq<Row>, m: Name) { exists r :: r in rows && r.model == m }

  /** The candidate has rows and passes every gate on them. */
  ghost predicate Passes(t: Terms, rows: seq<Row>, m: Name) {
    HasRow(rows, m) && Gates(t, RowsOf(rows, m))
  }

  /** The sorted entries: exactly the passing candidates, best first. */
  lemma RankedFacts(t: Terms, rows: seq<Row>)
    ensures var ranked := Sort(Entries(t, KeysOf(ROW_MODEL, rows), rows), RANKING);
            && SortedBy(ranked, RANKING)
            && (forall i :: 0 <= i < |ranked| ==>
                  && Passes(t, rows, ranked[i].model)
                  && ranked[i] == Figures(t, ranked[i].model, RowsOf(rows, ranked[i].model)))
            && (forall m :: Passes(t, rows, m) ==> exists i :: 0 <= i < |ranked| && ranked[i].model == m)
  {
    var ms := KeysOf(ROW_MODEL, rows);
    var entries := Entries(t, ms, rows);
    var ranked := Sort(entries, RANKING);
    EntriesContents(t, ms, rows);
    KeysOfContents(ROW_MODEL, rows);
    RankingIsTotalOrder();
    SortSorts(entries, RANKING);
    forall i | 0 <= i < |ranked|
      ensures Passes(t, rows, ranked[i].model)
      ensures ranked[i] == Figures(t, ranked[i].model, RowsOf(rows, ranked[i].model))
    {
      assert ranked[i] in entries;
      assert Entered(t, ms, rows, ranked[i]);
    }
    forall m | Passes(t, rows, m) ensures exists i :: 0 <= i < |ranked| && ranked[i].model == m {
      var e := Figures(t, m, RowsOf(rows, m));
      FiguresName(t, m, RowsOf(rows, m));
      assert Entered(t, ms, rows, e);
      assert e in ranked;
    }
  }

  /** There is a winner exactly when some candidate passes every gate, and it is one that does. */
  lemma WinnerPassesGates(t: Terms, rows: seq<Row>)
    ensures var d := Select(t, rows);
            && (d.winner.Some? <==> exists m :: Passes(t, rows, m))
            && (d.winner.Some? ==> Passes(t, rows, d.winner.value))
            && (d.outcome == NoSafeReplacement <==> d.winner.None?)
  {
    RankedFacts(t, rows);
    DecidePicks(t, Sort(Entries(t, KeysOf(ROW_MODEL, rows), rows), RANKING));
  }

  /** The decision names a ranked candidate if there is one. */
  lemma DecidePicks(t: Terms, ranked: seq<Ranked>)
    ensures var d := Decide(t, ranked);
            && (d.winner.Some? <==> ranked != []) && (d.outcome == NoSafeReplacement <==> ranked == [])
            && (d.winner.Some? ==> exists i :: 0 <= i < |ranked| && ranked[i].model == d.winner.value)
  {
    if ranked != [] { assert ranked[0].model == ranked[0].model; }
  }

  function QualityOf(t: Terms, rows: seq<Row>, m: Name): real { Quality(t, RowsOf(rows, m)) }

  function VariationOf(t: Terms, rows: seq<Row>, m: Name): real { Variation(t, RowsOf(rows, m)) }

  /** A clear winner leads every other passing candidate by at least a full point of quality and
      by at least its own spread. */
  lemma ClearWinnerLeads(t: Terms, rows: seq<Row>, m: Name)
    requires Select(t, rows).outcome == Winner && Passes(t, rows, m) && m != Select(t, rows).winner.value
    ensures var w := Select(t, rows).winner.value;
            QualityOf(t, rows, w) >= QualityOf(t, rows, m) + Max(1.0, VariationOf(t, rows, w))
  {
    RankedFacts(t, rows);
    var ranked := Sort(Entries(t, KeysOf(ROW_MODEL, rows), rows), RANKING);
    var i :| 0 <= i < |ranked| && ranked[i].model == m;
    ClearGap(t, ranked, i);
    EntryParts(t, rows, ranked[0]);
    EntryParts(t, rows, ranked[i]);
  }

  lemma EntryParts(t: Terms, rows: seq<Row>, e: Ranked)
    requires e == Figures(t, e.model, RowsOf(rows, e.model))
    ensures e.quality == QualityOf(t, rows, e.model) && e.spread == VariationOf(t, rows, e.model)
  {
    FigureParts(t, e.model, rows);
  }

  lemma ClearGap(t: Terms, ranked: seq<Ranked>, i: nat)
    requires SortedBy(ranked, RANKING) && i < |ranked|
    requires Decide(t, ranked).outcome == Winner && ranked[i].model != Decide(t, ranked).winner.value
    ensures ranked[0].quality >= ranked[i].quality + Max(1.0, ranked[0].spread)
  {
    assert i > 0;
    assert i > 1 ==> RANKING(ranked[1], ranked[i]);
    assert ranked[1].quality >= ranked[i].quality;
  }

  lemma FigureParts(t: Terms, m: Name, rows: seq<Row>)
    ensures Figures(t, m, RowsOf(rows, m)).quality == QualityOf(t, rows, m)
    ensures Figures(t, m, RowsOf(rows, m)).spread == VariationOf(t, rows, m)
  {
  }

  /** And the runner-up, the best of the others, trails it by at least the runner-up's spread too. */
  lemma ClearWinnerLeadsRunnerUp(t: Terms, rows: seq<Row>, m: Name) returns (second: Name)
    requires Select(t, rows).outcome == Winner && Passes(t, rows, m) && m != Select(t, rows).winner.value
    ensures var w := Select(t, rows).winner.value;
            && second != w && Passes(t, rows, second)
            && QualityOf(t, rows, w) >= QualityOf(t, rows, second) + VariationOf(t, rows, second)
    ensures forall other :: Passes(t, rows, other) && other != Select(t, rows).winner.value ==>
              Before(Figures(t, second, RowsOf(rows, second)), Figures(t, other, RowsOf(rows, other)))
  {
    RankedFacts(t, rows);
    EntriesDistinct(t, rows);
    var ranked := Sort(Entries(t, KeysOf(ROW_MODEL, rows), rows), RANKING);
    var i :| 0 <= i < |ranked| && ranked[i].model == m;
    assert i > 0;
    second := ranked[1].model;
    SecondComesNext(t, ranked);
    EntryParts(t, rows, ranked[0]);
    EntryParts(t, rows, ranked[1]);
    forall other | Passes(t, rows, other) && other != ranked[0].model
      ensures Before(ranked[1], Figures(t, other, RowsOf(rows, other)))
    {
      var j :| 0 <= j < |ranked| && ranked[j].model == other;
      assert Before(ranked[1], ranked[j]);
    }
  }

  lemma SecondComesNext(t: Terms, ranked: seq<Ranked>)
    requires SortedBy(ranked, RANKING) && |ranked| > 1 && Decide(t, ranked).outcome == Winner
    ensures ranked[0].quality >= ranked[1].quality + ranked[1].spread
    ensures forall j :: 0 < j < |ranked| ==> Before(ranked[1], ranked[j])
  {
    RankingIsTotalOrder();
    forall j | 0 < j < |ranked| ensures Before(ranked[1], ranked[j]) {
      assert j == 1 || RANKING(ranked[1], ranked[j]);
      assert RANKING(ranked[1], ranked[1]);
    }
  }

  /** No candidate is ranked twice. */
  lemma EntriesDistinct(t: Terms, rows: seq<Row>)
    ensures var ranked := Sort(Entries(t, KeysOf(ROW_MODEL, rows), rows), RANKING);
            forall i, j :: 0 <= i < j < |ranked| ==> ranked[i].model != ranked[j].model
  {
    var ms := KeysOf(ROW_MODEL, rows);
    var entries := Entries(t, ms, rows);
    var ranked := Sort(entries, RANKING);
    EntriesContents(t, ms, rows);
    NoDupPermutes(entries, ranked);
    forall i, j | 0 <= i < j < |ranked| ensures ranked[i].model != ranked[j].model {
      assert ranked[i] in entries && ranked[j] in entries;
      assert Entered(t, ms, rows, ranked[i]) && Entered(t, ms, rows, ranked[j]);
    }
  }

  /** In a practical tie the baseline wins whenever it passes its gates at all, however far it is
      behind; otherwise the winner is one nobody ranks before. */
  lemma TieGoesToBaseline(t: Terms, rows: seq<Row>)
    requires Select(t, rows).outcome == PracticalTie
    ensures var w := Select(t, rows).winner.value;
            if Passes(t, rows, t.baseline) then w == t.baseline
            else Passes(t, rows, w) && forall m :: Passes(t, rows, m) ==>
              Before(Figures(t, w, RowsOf(rows, w)), Figures(t, m, RowsOf(rows, m)))
  {
    RankedFacts(t, rows);
    var ranked := Sort(Entries(t, KeysOf(ROW_MODEL, rows), rows), RANKING);
    RankingIsTotalOrder();
    if !Passes(t, rows, t.baseline) {
      forall m | Passes(t, rows, m) ensures Before(ranked[0], Figures(t, m, RowsOf(rows, m))) {
        var i :| 0 <= i < |ranked| && ranked[i].model == m;
        assert i == 0 || RANKING(ranked[0], ranked[i]);
        assert RANKING(ranked[0], ranked[0]);
      }
    }
  }

  // ----- the tie band -----

  /** The best-ranked passing candidate. */
  ghost predicate IsLeader(t: Terms, rows: seq<Row>, leader: Name) {
    && Passes(t, rows, leader)
    && forall m :: Passes(t, rows, m) ==>
         Before(Figures(t, leader, RowsOf(rows, leader)), Figures(t, m, RowsOf(rows, m)))
  }

  /** Whether the rule would call the leader and this candidate level: their gap is below one
      point, or below the larger of their spreads. */
  ghost predicate InBand(t: Terms, rows: seq<Row>, leader: Name, m: Name) {
    var gap := QualityOf(t, rows, leader) - QualityOf(t, rows, m);
    m == leader || gap < 1.0 || gap < Max(VariationOf(t, rows, leader), VariationOf(t, rows, m))
  }

  lemma LeaderIsUnique(t: Terms, rows: seq<Row>, a: Name, b: Name)
    requires IsLeader(t, rows, a) && IsLeader(t, rows, b)
    ensures a == b
  {
    FiguresName(t, a, RowsOf(rows, a));
    FiguresName(t, b, RowsOf(rows, b));
    RankingIsTotalOrder();
    assert RANKING(Figures(t, a, RowsOf(rows, a)), Figures(t, b, RowsOf(rows, b)));
    assert RANKING(Figures(t, b, RowsOf(rows, b)), Figures(t, a, RowsOf(rows, a)));
  }

  /** The winner of a practical tie is level with the leader exactly when the baseline fails a
      gate or is itself level with the leader. */
  lemma TieWinnerInBandIff(t: Terms, rows: seq<Row>, leader: Name)
    requires Select(t, rows).outcome == PracticalTie && IsLeader(t, rows, leader)
    ensures InBand(t, rows, leader, Select(t, rows).winner.value)
       <==> !Passes(t, rows, t.baseline) || InBand(t, rows, leader, t.baseline)
  {
    TieGoesToBaseline(t, rows);
    if !Passes(t, rows, t.baseline) { LeaderIsUnique(t, rows, leader, Select(t, rows).winner.value); }
  }

  /** Whenever anybody passes there is a leader. */
  lemma LeaderExists(t: Terms, rows: seq<Row>, m: Name) returns (leader: Name)
    requires Passes(t, rows, m)
    ensures IsLeader(t, rows, leader)
  {
    RankedFacts(t, rows);
    RankingIsTotalOrder();
    var ranked := Sort(Entries(t, KeysOf(ROW_MODEL, rows), rows), RANKING);
    var i :| 0 <= i < |ranked| && ranked[i].model == m;
    leader := ranked[0].model;
    forall other | Passes(t, rows, other) ensures Before(ranked[0], Figures(t, other, RowsOf(rows, other))) {
      var j :| 0 <= j < |ranked| && ranked[j].model == other;
      assert j == 0 || RANKING(ranked[0], ranked[j]);
      assert RANKING(ranked[0], ranked[0]);
    }
  }

  // ----- a tie won from outside the band -----

  lemma LevelLeadersTie(t: Terms, rows: seq<Row>, a: Name, b: Name)
    requires a != b && Passes(t, rows, a) && Passes(t, rows, b)
    requires QualityOf(t, rows, a) == QualityOf(t, rows, b)
    requires forall m :: Passes(t, rows, m) ==> QualityOf(t, rows, m) <= QualityOf(t, rows, a)
    ensures Select(t, rows).outcome == PracticalTie
  {
    WinnerPassesGates(t, rows);
    if Select(t, rows).outcome == Winner {
      if Select(t, rows).winner.value == a { ClearWinnerLeads(t, rows, b); } else { ClearWinnerLeads(t, rows, a); }
    }
  }

  function ExampleRow(m: Name, correct: nat): Row {
    Row(m, 0, true, true, 0.0, true, true, true, true, true, true, false, correct, 100, 0.0, 0.0)
  }

  lemma OneRowQuality(t: Terms, m: Name, correct: nat)
    requires !t.core
    ensures Quality(t, [ExampleRow(m, correct)]) == (correct as real / 100.0) * 30.0
    ensures correct >= 95 ==> Gates(t, [ExampleRow(m, correct)])
  {
    var rows := [ExampleRow(m, correct)];
    assert MapSeq(ROW_TOTAL, rows) == [100.0] && MapSeq(ROW_CORRECT, rows) == [correct as real];
    assert [100.0][1..] == [] && [correct as real][1..] == [];
    assert Sum(MapSeq(ROW_TOTAL, rows)) == 100.0 && Sum(MapSeq(ROW_CORRECT, rows)) == correct as real;
  }

  const EXAMPLE: seq<Row> := [ExampleRow(1, 100), ExampleRow(2, 100), ExampleRow(3, 95)]

  lemma ExampleQualities(t: Terms)
    requires !t.core
    ensures Quality(t, RowsOf(EXAMPLE, 1)) == 30.0 && Quality(t, RowsOf(EXAMPLE, 2)) == 30.0
    ensures Quality(t, RowsOf(EXAMPLE, 3)) == 28.5
    ensures Gates(t, RowsOf(EXAMPLE, 1)) && Gates(t, RowsOf(EXAMPLE, 2)) && Gates(t, RowsOf(EXAMPLE, 3))
  {
    ExampleRows();
    OneRowQuality(t, 1, 100);
    OneRowQuality(t, 2, 100);
    OneRowQuality(t, 3, 95);
  }

  lemma ExampleModels()
    ensures forall m :: HasRow(EXAMPLE, m) <==> m == 1 || m == 2 || m == 3
  {
    assert EXAMPLE[0] in EXAMPLE && EXAMPLE[1] in EXAMPLE && EXAMPLE[2] in EXAMPLE;
  }

  /** One row leaves no spread, and the same latency, cost and tool use as any other. */
  lemma OneRowFigures(t: Terms, m: Name, correct: nat)
    requires !t.core
    ensures var f := Figures(t, m, [ExampleRow(m, correct)]);
            f == Ranked(m, Quality(t, [ExampleRow(m, correct)]), 0.0, 1.0, P95([ExampleRow(1, 100)]), 0.0)
  {
    var rows := [ExampleRow(m, correct)];
    assert MapSeq(ROW_LATENCY, rows) == [0.0] == MapSeq(ROW_LATENCY, [ExampleRow(1, 100)]);
    assert MapSeq(ROW_COST, rows) == [0.0] && [0.0][1..] == [];
    assert Sum([0.0]) == 0.0;
  }

  lemma ExamplePasses(t: Terms)
    requires !t.core
    ensures forall m :: Passes(t, EXAMPLE, m) <==> m == 1 || m == 2 || m == 3
  {
    ExampleModels();
    ExampleQualities(t);
  }

  lemma ExampleFigures(t: Terms)
    requires !t.core
    ensures var p := P95([ExampleRow(1, 100)]);
            && Figures(t, 1, RowsOf(EXAMPLE, 1)) == Ranked(1, 30.0, 0.0, 1.0, p, 0.0)
            && Figures(t, 2, RowsOf(EXAMPLE, 2)) == Ranked(2, 30.0, 0.0, 1.0, p, 0.0)
            && Figures(t, 3, RowsOf(EXAMPLE, 3)) == Ranked(3, 28.5, 0.0, 1.0, p, 0.0)
  {
    ExampleRows();
    ExampleQualities(t);
    OneRowFigures(t, 1, 100);
    OneRowFigures(t, 2, 100);
    OneRowFigures(t, 3, 95);
  }

  lemma ExampleLeader(t: Terms)
    requires !t.core
    ensures IsLeader(t, EXAMPLE, 1)
  {
    ExamplePasses(t);
    ExampleFigures(t);
    LevelBefore(P95([ExampleRow(1, 100)]));
    forall m | Passes(t, EXAMPLE, m)
      ensures Before(Figures(t, 1, RowsOf(EXAMPLE, 1)), Figures(t, m, RowsOf(EXAMPLE, m)))
    {
      assert m == 1 || m == 2 || m == 3;
    }
  }

  lemma LevelBefore(p: real)
    ensures var first := Ranked(1, 30.0, 0.0, 1.0, p, 0.0);
            && Before(first, first) && Before(first, Ranked(2, 30.0, 0.0, 1.0, p, 0.0))
            && Before(first, Ranked(3, 28.5, 0.0, 1.0, p, 0.0))
  {
  }

  lemma ExampleGap(t: Terms)
    requires !t.core
    ensures !InBand(t, EXAMPLE, 1, 3)
  {
    ExampleFigures(t);
    FigureParts(t, 1, EXAMPLE);
    FigureParts(t, 3, EXAMPLE);
  }

  lemma ExampleTie(t: Terms)
    requires !t.core
    ensures Select(t, EXAMPLE).outcome == PracticalTie
  {
    ExampleQualities(t);
    ExamplePasses(t);
    LevelLeadersTie(t, EXAMPLE, 1, 2);
  }

  /** Two candidates level at the top and the baseline a point and a half behind both, outside the
      tie band: the baseline is declared the winner. */
  lemma BaselineWinsFromOutsideTheBand(t: Terms)
    requires !t.core && t.baseline == 3
    ensures Select(t, EXAMPLE) == Decision(PracticalTie, Some(3))
    ensures IsLeader(t, EXAMPLE, 1) && !InBand(t, EXAMPLE, 1, 3)
  {
    ExampleTie(t);
    ExamplePasses(t);
    WinnerPassesGates(t, EXAMPLE);
    TieGoesToBaseline(t, EXAMPLE);
    ExampleLeader(t);
    ExampleGap(t);
  }

  lemma ExampleRows()
    ensures RowsOf(EXAMPLE, 1) == [ExampleRow(1, 100)] && RowsOf(EXAMPLE, 2) == [ExampleRow(2, 100)]
    ensures RowsOf(EXAMPLE, 3) == [ExampleRow(3, 95)]
  {
    var rows := EXAMPLE;
    assert rows[1..] == [rows[1], rows[2]] && rows[1..][1..] == [rows[2]] && rows[1..][1..][1..] == [];
  }
}
