/** Runs of the accepted-record protocol that reach its awkward states: a half-done acceptance, and
    an accepted record that cannot be read back. */
module AcceptanceRuns {
  import opened Prelude
  import opened Acceptance
  import opened AcceptanceLaws
  import opened AcceptanceSafety

  /** A producer's artifact for the first execution, observed at time zero. */
  function FirstArtifact(x: Ctx, producer: Name, source: nat): Artifact
    requires x.Size() > 0
  {
    var e := x.executions[0];
    Artifact(x.registry, x.run, x.auth, x.sealedPlan, 1, e, x.kindOf(e), producer, 0, source,
             x.Digest(SourceDoc(source)))
  }

  /** Its receipt, for the bytes the artifact was delivered in. */
  function FirstReceipt(x: Ctx, a: Artifact, contents: Bytes): Receipt {
    Receipt(a.registry, a.run, a.auth, 1, a.execution, a.producer, x.sha(contents), a.sourceSha, 0, 1)
  }

  /** The run's configuration lets this producer deliver this source, encoded as `contents`. */
  ghost predicate Deliverable(x: Ctx, producer: Name, source: nat, contents: Bytes) {
    && x.Injective() && x.Size() > 0
    && x.mayProduce(x.kindOf(x.executions[0]), producer) && x.sourceOk(x.kindOf(x.executions[0]), source)
    && x.Parse(contents) == Some(ArtifactDoc(FirstArtifact(x, producer, source)))
  }

  /** Wherever a producer may deliver at all, other bytes that parse to its artifact do as well. */
  lemma OtherBytesAreDeliverable(x: Ctx, producer: Name, source: nat)
    requires x.Injective() && x.Size() > 0
    requires x.mayProduce(x.kindOf(x.executions[0]), producer) && x.sourceOk(x.kindOf(x.executions[0]), source)
    ensures Deliverable(x, producer, source, Canonical(ArtifactDoc(FirstArtifact(x, producer, source))))
    ensures var y := x.(parse := (id: nat) => Some(ArtifactDoc(FirstArtifact(x, producer, source))));
            Deliverable(y, producer, source, Other(0)) && !Other(0).Canonical?
  {
    var y := x.(parse := (id: nat) => Some(ArtifactDoc(FirstArtifact(x, producer, source))));
    var trace :| x.Traces(trace);
    assert y.Traces(trace);
    assert FirstArtifact(y, producer, source) == FirstArtifact(x, producer, source);
  }

  /** Both deliveries, and an acceptance at once, dying after `writes` writes. */
  function FirstRun(x: Ctx, producer: Name, source: nat, contents: Bytes, writes: nat): seq<Op>
    requires x.Size() > 0
  {
    var r := FirstReceipt(x, FirstArtifact(x, producer, source), contents);
    [PutArtifact(1, contents), PutReceipt(1, Canonical(ReceiptDoc(r))), Accept(0, writes)]
  }

  function Delivered(x: Ctx, producer: Name, source: nat, contents: Bytes): Store
    requires x.Size() > 0
  {
    var r := FirstReceipt(x, FirstArtifact(x, producer, source), contents);
    Store([], map[], Inbox(map[1 := contents], map[1 := Canonical(ReceiptDoc(r))]), true)
  }

  lemma FirstRunUnfolds(x: Ctx, producer: Name, source: nat, contents: Bytes, writes: nat)
    requires x.Size() > 0
    ensures Run(x, EMPTY, FirstRun(x, producer, source, contents, writes))
         == AcceptNext(x, Delivered(x, producer, source, contents), 0, writes).0
  {
    var ops := FirstRun(x, producer, source, contents, writes);
    assert ops[1..] == [ops[1], ops[2]] && ops[1..][1..] == [ops[2]] && ops[1..][1..][1..] == [];
    var d := Delivered(x, producer, source, contents);
    var s1 := Step(x, EMPTY, ops[0]).0;
    assert s1.inbox.artifacts == d.inbox.artifacts;
    assert Step(x, s1, ops[1]).0.inbox.receipts == d.inbox.receipts;
    assert Step(x, s1, ops[1]).0 == d;
    assert Run(x, EMPTY, ops) == Run(x, s1, ops[1..]);
    assert Run(x, s1, ops[1..]) == Run(x, d, ops[1..][1..]);
    assert Run(x, d, [ops[2]]) == Step(x, d, ops[2]).0 by {
      assert [ops[2]][1..] == [];
    }
  }

  lemma DeliveredIsAcceptable(x: Ctx, producer: Name, source: nat, contents: Bytes)
    requires Deliverable(x, producer, source, contents)
    ensures var d := Delivered(x, producer, source, contents);
            && Inv(x, d, []) && AllCanonical(d, 1) && ProducerInput(x, d.inbox, 1, 0).Some?
  {
  }

  /** Accepting it, up to the first or the second write. */
  lemma FirstAcceptance(x: Ctx, producer: Name, source: nat, contents: Bytes, writes: nat)
    requires Deliverable(x, producer, source, contents) && 1 <= writes
    ensures var t := AcceptNext(x, Delivered(x, producer, source, contents), 0, writes).0;
            && |t.journal| == 1 && |t.records| == (if writes == 1 then 0 else 1)
            && t.inbox == Delivered(x, producer, source, contents).inbox
  {
    var d := Delivered(x, producer, source, contents);
    DeliveredIsAcceptable(x, producer, source, contents);
    NextClaimFacts(x, d, [], 0);
    var c := NextClaim(x, d, 0).value;
    FreshCommit(x, d, [], c, writes);
  }

  /** A death between the two writes of the first acceptance leaves it half done. */
  lemma HalfDoneRun(x: Ctx, producer: Name, source: nat, contents: Bytes)
    requires Deliverable(x, producer, source, contents)
    ensures HalfDone(Run(x, EMPTY, FirstRun(x, producer, source, contents, 1)))
  {
    FirstRunUnfolds(x, producer, source, contents, 1);
    FirstAcceptance(x, producer, source, contents, 1);
  }

  /** The same artifact in other bytes than its canonical encoding is accepted, and recorded, but
      what was recorded cannot be read. */
  lemma UnreadableRun(x: Ctx, producer: Name, source: nat, contents: Bytes)
    requires Deliverable(x, producer, source, contents)
    ensures var s := Run(x, EMPTY, FirstRun(x, producer, source, contents, 2));
            |s.records| == 1 && (ReadAccepted(x, s).Some? <==> contents.Canonical?)
  {
    FirstRunUnfolds(x, producer, source, contents, 2);
    FirstAcceptance(x, producer, source, contents, 2);
    ReadableIffNewestCanonical(x, FirstRun(x, producer, source, contents, 2));
  }
}
