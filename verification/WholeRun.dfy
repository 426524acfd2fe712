/** A run from its first delivery to its committed phase: acceptances and close-execution commands in
    any order, every command reading the records that are accepted at that moment. */
module WholeRun {
  import opened Prelude
  import opened Acceptance
  import opened AcceptanceLaws
  import opened AcceptanceSafety
  import opened AcceptanceRuns
  import opened Closeout
  import opened CloseoutLaws
  import opened Convergence

  datatype Event = Accepting(op: Op) | Closing(world: World)

  /** What the acceptances and what the closing commands have made durable. */
  datatype Whole = Whole(store: Store, close: State)

  function Start(): Whole { Whole(EMPTY, State(map[], Executing, 0, 0, 0, 0)) }

  /** Every execution is accepted and can be read back. */
  predicate Complete(x: Ctx, s: Store) { ReadAccepted(x, s).Some? && |ReadAccepted(x, s).value| == x.Size() }

  /** A close-execution command over the records as they are now. */
  function CloseNow(t: Terms, store: Store, s: State, w: World): (State, Verdict) {
    var rs := ReadAccepted(t.x, store);
    if rs.None? then (s, Failed) else CloseExecution(t, rs.value, s, w)
  }

  function Happen(t: Terms, g: Whole, e: Event): Whole {
    match e
    case Accepting(op) => g.(store := Step(t.x, g.store, op).0)
    case Closing(w) => g.(close := CloseNow(t, g.store, g.close, w).0)
  }

  function Events(t: Terms, g: Whole, es: seq<Event>): Whole
    decreases |es|
  {
    if es == [] then g else Events(t, Happen(t, g, es[0]), es[1..])
  }

  /** The acceptances among the events. */
  function Ops(es: seq<Event>): seq<Op> {
    if es == [] then [] else (if es[0].Accepting? then [es[0].op] else []) + Ops(es[1..])
  }

  /** The closing commands that found the records complete. */
  function LateClosings(t: Terms, g: Whole, es: seq<Event>): seq<World>
    decreases |es|
  {
    if es == [] then []
    else
      (if es[0].Closing? && Complete(t.x, g.store) then [es[0].world] else [])
      + LateClosings(t, Happen(t, g, es[0]), es[1..])
  }

  // ----- the two halves do not disturb each other -----

  lemma {:induction false} StoreRuns(t: Terms, g: Whole, es: seq<Event>)
    ensures Events(t, g, es).store == Run(t.x, g.store, Ops(es))
    decreases |es|
  {
    if es != [] {
      StoreRuns(t, Happen(t, g, es[0]), es[1..]);
      if es[0].Accepting? {
        assert Ops(es)[0] == es[0].op && Ops(es)[1..] == Ops(es[1..]);
      } else {
        assert Ops(es) == Ops(es[1..]);
      }
    }
  }

  /** What cannot be closed is left alone. */
  lemma NotClosableIsIdle(t: Terms, rs: seq<Record>, s: State, w: World)
    requires !Closable(t, rs)
    ensures CloseExecution(t, rs, s, w) == (s, Failed)
  {
  }

  lemma {:induction false} NotClosableStays(t: Terms, rs: seq<Record>, s: State, ws: seq<World>)
    requires !Closable(t, rs)
    ensures Retries(t, rs, s, ws) == s
    decreases |ws|
  {
    if ws != [] {
      NotClosableIsIdle(t, rs, s, ws[0]);
      NotClosableStays(t, rs, s, ws[1..]);
    }
  }

  /** A command issued before the records are complete does nothing. */
  lemma EarlyClosingIsIdle(t: Terms, store: Store, s: State, w: World)
    requires !Complete(t.x, store)
    ensures CloseNow(t, store, s, w) == (s, Failed)
  {
    var rs := ReadAccepted(t.x, store);
    if rs.Some? { NotClosableIsIdle(t, rs.value, s, w); }
  }

  /** Once complete, the records stay what they are. */
  lemma CompleteStays(t: Terms, g: Whole, claims: seq<Claim>, es: seq<Event>)
    requires t.x.Injective() && Inv(t.x, g.store, claims) && Complete(t.x, g.store)
    ensures ReadAccepted(t.x, Events(t, g, es).store) == ReadAccepted(t.x, g.store)
  {
    ReadableNow(t.x, g.store, claims);
    StoreRuns(t, g, es);
    CompleteRunIsFixed(t.x, g.store, claims, Ops(es));
  }

  /** The closing side went from `s` to where the late commands take it over the final records, if
      they are complete, and stayed at `s` otherwise. */
  ghost predicate ClosedBy(t: Terms, s: State, last: Whole, late: seq<World>) {
    last.close == if Complete(t.x, last.store) then Retries(t, ReadAccepted(t.x, last.store).value, s, late) else s
  }

  /** Whatever happens in whatever order, the closing side is where the commands issued over the
      complete records took it, and untouched before. */
  lemma {:induction false} EventsAreRetries(t: Terms, g: Whole, claims: seq<Claim>, es: seq<Event>, last: Whole,
                                            late: seq<World>)
    requires t.x.Injective() && Inv(t.x, g.store, claims)
    requires last == Events(t, g, es) && late == LateClosings(t, g, es)
    ensures ClosedBy(t, g.close, last, late)
    decreases |es|
  {
    if es == [] {
      assert !Complete(t.x, g.store) || Retries(t, ReadAccepted(t.x, g.store).value, g.close, []) == g.close;
    } else if es[0].Accepting? {
      var claims' := StepKeepsInv(t.x, g.store, claims, es[0].op);
      EventsAreRetries(t, Happen(t, g, es[0]), claims', es[1..], last, late);
    } else if !Complete(t.x, g.store) {
      EarlyClosingIsIdle(t, g.store, g.close, es[0].world);
      EventsAreRetries(t, g, claims, es[1..], last, late);
    } else {
      var g1 := Happen(t, g, es[0]);
      EventsAreRetries(t, g1, claims, es[1..], last, late[1..]);
      CompleteStays(t, g1, claims, es[1..]);
      FirstLate(t, g, es[0].world, last, late);
    }
  }

  lemma FirstLate(t: Terms, g: Whole, w: World, last: Whole, late: seq<World>)
    requires Complete(t.x, g.store) && ReadAccepted(t.x, last.store) == ReadAccepted(t.x, g.store)
    requires late != [] && late[0] == w && ClosedBy(t, CloseNow(t, g.store, g.close, w).0, last, late[1..])
    ensures ClosedBy(t, g.close, last, late)
  {
  }

  // ----- the run as a whole -----

  /** Every execution passed, each with a source of its own. */
  ghost predicate Passed(t: Terms, rs: seq<Record>) { Closable(t, rs) && FailedExecutions(t, rs) == {} }

  lemma FreshFinalizeIff(t: Terms, rs: seq<Record>)
    ensures Finalize(t, rs, map[], 5).1.Done? <==> Passed(t, rs)
  {
    if Passed(t, rs) {
      EmptyVaultTears(t, rs);
    } else if Closable(t, rs) {
      EmptyVaultEvaluates(t, rs, 5);
    }
  }

  /** From the first delivery on, whatever was delivered, accepted, interrupted and retried, and
      however often closing was tried too early: an undisturbed close-execution command commits
      exactly when every execution is accepted and readable, all passed with distinct sources, and
      no command died between the two files of the ledger. The anchors are then those that the
      run's own records determine, and closing again changes nothing. Otherwise the run is still
      executing. */
  lemma WholeRunCloses(t: Terms, es: seq<Event>, w: World, again: World)
    requires t.Injective() && t.x.Injective() && Clear(w) && Clear(again)
    ensures var g := Events(t, Start(), es);
            var (s', verdict) := CloseNow(t, g.store, g.close, w);
            if && Complete(t.x, g.store) && Passed(t, ReadAccepted(t.x, g.store).value)
               && !Tears(LateClosings(t, Start(), es))
            then
              && verdict == Reached(AttemptCommitted) && s'.phase == AttemptCommitted
              && Anchored(t, ReadAccepted(t.x, g.store).value, s')
              && CloseNow(t, g.store, s', again) == (s', verdict)
            else verdict == Failed && s'.phase == Executing
  {
    var g := Events(t, Start(), es);
    EmptyInv(t.x);
    EventsAreRetries(t, Start(), [], es, g, LateClosings(t, Start(), es));
    if Complete(t.x, g.store) {
      var rs := ReadAccepted(t.x, g.store).value;
      var late := LateClosings(t, Start(), es);
      FreshFinalizeIff(t, rs);
      if rs == [] {
        NotClosableStays(t, rs, Start().close, late);
        NotClosableIsIdle(t, rs, g.close, w);
      } else {
        ClosingConverges(t, rs, Start().close, late, w, again);
      }
    } else {
      EarlyClosingIsIdle(t, g.store, g.close, w);
    }
  }

  // ----- both ends occur -----

  /** The first execution's delivery and its acceptance. */
  function FirstEvents(x: Ctx, producer: Name, source: nat): seq<Event>
    requires x.Size() > 0
  {
    var contents := Canonical(ArtifactDoc(FirstArtifact(x, producer, source)));
    var ops := FirstRun(x, producer, source, contents, 2);
    [Accepting(ops[0]), Accepting(ops[1]), Accepting(ops[2])]
  }

  /** The run's configuration lets this producer deliver this source for its only execution, and
      the evaluation fails nothing. */
  ghost predicate OneExecution(t: Terms, producer: Name, source: nat) {
    && t.Injective() && t.x.Injective() && t.x.Size() == 1 && (forall a :: !t.failed(a))
    && t.x.mayProduce(t.x.kindOf(t.x.executions[0]), producer)
    && t.x.sourceOk(t.x.kindOf(t.x.executions[0]), source)
  }

  lemma FirstEventsComplete(t: Terms, producer: Name, source: nat)
    requires OneExecution(t, producer, source)
    ensures var g := Events(t, Start(), FirstEvents(t.x, producer, source));
            Complete(t.x, g.store) && Passed(t, ReadAccepted(t.x, g.store).value)
  {
    var es := FirstEvents(t.x, producer, source);
    var contents := Canonical(ArtifactDoc(FirstArtifact(t.x, producer, source)));
    var ops := FirstRun(t.x, producer, source, contents, 2);
    OtherBytesAreDeliverable(t.x, producer, source);
    UnreadableRun(t.x, producer, source, contents);
    ReadableIffNewestCanonical(t.x, ops);
    OpsOfThree(ops[0], ops[1], ops[2]);
    assert ops == [ops[0], ops[1], ops[2]];
    StoreRuns(t, Start(), es);
    OneRecordPasses(t, ReadAccepted(t.x, Events(t, Start(), es).store).value);
  }

  lemma OpsOfThree(a: Op, b: Op, c: Op)
    ensures Ops([Accepting(a), Accepting(b), Accepting(c)]) == [a, b, c]
  {
    var es := [Accepting(a), Accepting(b), Accepting(c)];
    assert es[1..] == [es[1], es[2]] && es[1..][1..] == [es[2]] && es[1..][1..][1..] == [];
    assert Ops([es[2]]) == [c];
    assert Ops([es[1], es[2]]) == [b] + Ops([es[2]]);
  }

  lemma OneRecordPasses(t: Terms, rs: seq<Record>)
    requires |rs| == t.x.Size() == 1 && forall a :: !t.failed(a)
    ensures Passed(t, rs)
  {
  }

  lemma {:induction false} LateAppend(t: Terms, g: Whole, es: seq<Event>, w: World)
    ensures LateClosings(t, g, es + [Closing(w)])
         == LateClosings(t, g, es) + if Complete(t.x, Events(t, g, es).store) then [w] else []
    decreases |es|
  {
    var all := es + [Closing(w)];
    if es == [] {
      assert all == [Closing(w)] && all[1..] == [];
    } else {
      assert all[0] == es[0] && all[1..] == es[1..] + [Closing(w)];
      LateAppend(t, Happen(t, g, es[0]), es[1..], w);
    }
  }

  lemma {:induction false} NoLateClosings(t: Terms, g: Whole, es: seq<Event>)
    requires forall i :: 0 <= i < |es| ==> es[i].Accepting?
    ensures LateClosings(t, g, es) == []
    decreases |es|
  {
    if es != [] { NoLateClosings(t, Happen(t, g, es[0]), es[1..]); }
  }

  lemma {:induction false} ClosingLeavesStore(t: Terms, g: Whole, es: seq<Event>, w: World)
    ensures Events(t, g, es + [Closing(w)]).store == Events(t, g, es).store
    decreases |es|
  {
    var all := es + [Closing(w)];
    if es == [] {
      assert all == [Closing(w)] && all[1..] == [];
    } else {
      assert all[0] == es[0] && all[1..] == es[1..] + [Closing(w)];
      ClosingLeavesStore(t, Happen(t, g, es[0]), es[1..], w);
    }
  }

  /** A run of one execution is closed by the next undisturbed command, unless a command died at its
      fifth write before. */
  lemma BothEndsOccur(t: Terms, producer: Name, source: nat, dying: World, w: World)
    requires OneExecution(t, producer, source) && dying.steps == 4 && Clear(w)
    ensures var es := FirstEvents(t.x, producer, source);
            var g, torn := Events(t, Start(), es), Events(t, Start(), es + [Closing(dying)]);
            && CloseNow(t, g.store, g.close, w).1 == Reached(AttemptCommitted)
            && CloseNow(t, torn.store, torn.close, w).1 == Failed
  {
    var es := FirstEvents(t.x, producer, source);
    FirstEventsComplete(t, producer, source);
    NoLateClosings(t, Start(), es);
    LateAppend(t, Start(), es, dying);
    ClosingLeavesStore(t, Start(), es, dying);
    assert [] + [dying] == [dying];
    WholeRunCloses(t, es, w, w);
    WholeRunCloses(t, es + [Closing(dying)], w, w);
  }
}
