/** The accepted-record protocol over whole runs: what is on disk at any moment, what a retry
    can still do to a half-done acceptance, and when the records can be read back. */
module AcceptanceSafety {
  import opened Prelude
  import opened Acceptance
  import opened AcceptanceLaws

  lemma {:induction false} RunKeepsInv(x: Ctx, s: Store, claims: seq<Claim>, ops: seq<Op>) returns (claims': seq<Claim>)
    requires x.Injective() && Inv(x, s, claims)
    ensures Inv(x, Run(x, s, ops), claims') && Extends(s, Run(x, s, ops)) && claims <= claims'
    decreases |ops|
  {
    claims' := claims;
    if ops != [] {
      var next := StepKeepsInv(x, s, claims, ops[0]);
      var t := Step(x, s, ops[0]).0;
      claims' := RunKeepsInv(x, t, next, ops[1..]);
      ExtendsTransitive(s, t, Run(x, s, ops));
    }
  }

  lemma ExtendsTransitive(s: Store, t: Store, u: Store)
    requires Extends(s, t) && Extends(t, u)
    ensures Extends(s, u)
  {
    assert u.journal[..|s.journal|] == u.journal[..|t.journal|][..|s.journal|];
  }

  /** Records form a gap-free prefix, the journal is at most one entry ahead, and every entry and
      record is the one its claim determines, whatever was delivered, accepted or interrupted. */
  lemma RunIsSafe(x: Ctx, ops: seq<Op>) returns (claims: seq<Claim>)
    requires x.Injective()
    ensures var s := Run(x, EMPTY, ops);
            && Inv(x, s, claims)
            && |s.records| <= |s.journal| <= |s.records| + 1
            && |s.journal| <= x.Size()
            && (forall i :: i in s.records <==> 1 <= i <= |s.records|)
            && (forall i :: i in s.records ==> s.records[i] == Canonical(RecordDoc(RecordOf(x, claims[i - 1]))))
  {
    EmptyInv(x);
    claims := RunKeepsInv(x, EMPTY, [], ops);
    SafeNow(x, Run(x, EMPTY, ops), claims);
  }

  lemma SafeNow(x: Ctx, s: Store, claims: seq<Claim>)
    requires Inv(x, s, claims)
    ensures |s.records| <= |s.journal| <= |s.records| + 1 && |s.journal| <= x.Size()
    ensures forall i :: i in s.records <==> 1 <= i <= |s.records|
    ensures forall i :: i in s.records ==> s.records[i] == Canonical(RecordDoc(RecordOf(x, claims[i - 1])))
  {
    RecordsAreClaimed(x, s, claims);
  }

  lemma EmptyInv(x: Ctx)
    ensures Inv(x, EMPTY, [])
  {
  }

  lemma RecordsAreClaimed(x: Ctx, s: Store, claims: seq<Claim>)
    requires Inv(x, s, claims)
    ensures forall i :: i in s.records ==> s.records[i] == Canonical(RecordDoc(RecordOf(x, claims[i - 1])))
  {
    forall i | i in s.records ensures s.records[i] == Canonical(RecordDoc(RecordOf(x, claims[i - 1]))) {
      assert ClaimedAt(x, s, claims, i - 1);
    }
  }

  /** What may stand in a record: a source with its own digest, from a producer allowed for the
      kind of this run's execution, observed at most fifteen minutes before it was accepted, with
      a receipt for exactly the delivered artifact that was in force at that moment. */
  ghost predicate Legitimate(x: Ctx, b: Inbox, ordinal: nat, c: Claim) {
    var a, r := c.artifact, c.receipt;
    && 1 <= ordinal <= x.Size() && a.ordinal == ordinal && r.ordinal == ordinal
    && a.execution == x.executions[ordinal - 1] && r.execution == a.execution && a.kind == x.kindOf(a.execution)
    && a.run == x.run && r.run == x.run && a.registry == x.registry && r.registry == x.registry
    && a.auth == x.auth && r.auth == x.auth && a.sealedPlan == x.sealedPlan
    && x.mayProduce(a.kind, a.producer) && r.producer == a.producer
    && x.sourceOk(a.kind, a.source) && a.sourceSha == x.Digest(SourceDoc(a.source)) && r.sourceSha == a.sourceSha
    && ordinal in b.artifacts && r.artifactSha == x.sha(b.artifacts[ordinal])
    && a.observed <= r.issued <= c.acceptedAt < r.expires && c.acceptedAt <= a.observed + 900
  }

  /** Nothing stale, foreign or unauthorized is ever accepted. */
  lemma OnlyLegitimateRecords(x: Ctx, ops: seq<Op>) returns (claims: seq<Claim>)
    requires x.Injective()
    ensures var s := Run(x, EMPTY, ops);
            forall i :: i in s.records ==>
              && 1 <= i <= |claims| && s.records[i] == Canonical(RecordDoc(RecordOf(x, claims[i - 1])))
              && Legitimate(x, s.inbox, i, claims[i - 1])
  {
    claims := RunIsSafe(x, ops);
    ClaimsAreLegitimate(x, Run(x, EMPTY, ops), claims);
  }

  lemma ClaimsAreLegitimate(x: Ctx, s: Store, claims: seq<Claim>)
    requires Inv(x, s, claims)
    ensures forall i :: i in s.records ==> 1 <= i <= |claims| && Legitimate(x, s.inbox, i, claims[i - 1])
  {
    forall i | i in s.records ensures 1 <= i <= |claims| && Legitimate(x, s.inbox, i, claims[i - 1]) {
      assert ClaimedAt(x, s, claims, i - 1);
    }
  }

  /** No ordinal ever gets two different records or journal entries. */
  lemma NothingIsRewritten(x: Ctx, ops: seq<Op>, more: seq<Op>)
    requires x.Injective()
    ensures Extends(Run(x, EMPTY, ops), Run(x, Run(x, EMPTY, ops), more))
  {
    var claims := RunIsSafe(x, ops);
    var claims' := RunKeepsInv(x, Run(x, EMPTY, ops), claims, more);
  }

  /** The journal is one entry ahead: a crash fell between the two writes. */
  ghost predicate HalfDone(s: Store) { |s.journal| == |s.records| + 1 }

  /** A half-done acceptance is completed by a retry exactly when its clock equals the journalled
      one, and then with the identical record; any other retry is refused and changes nothing. */
  lemma RetryOfHalfDone(x: Ctx, s: Store, claims: seq<Claim>, now: Time)
    requires x.Injective() && Inv(x, s, claims) && HalfDone(s) && s.executing
    ensures var n := |s.records|;
            var c := claims[n];
            AcceptNext(x, s, now, 2) ==
              if now == c.acceptedAt then
                (s.(records := s.records[n + 1 := Canonical(RecordDoc(RecordOf(x, c)))]), Accepted(RecordOf(x, c)))
              else (s, Refused)
  {
    var n := |s.records|;
    assert ClaimedAt(x, s, claims, n);
    HalfDoneIsCanonical(x, s, claims);
    NextClaimFacts(x, s, claims, now);
    var c := NextClaim(x, s, now);
    if c.Some? {
      HalfDoneCommit(x, s, claims, c.value, 2);
    }
  }

  lemma HalfDoneIsCanonical(x: Ctx, s: Store, claims: seq<Claim>)
    requires Inv(x, s, claims) && HalfDone(s)
    ensures AllCanonical(s, 1)
  {
    forall j | 1 <= j <= |s.records| ensures CanonicalAt(s.inbox, j) {
      assert ClaimedAt(x, s, claims, j - 1);
    }
  }

  ghost predicate NeverAt(ops: seq<Op>, t: Time) {
    forall i :: 0 <= i < |ops| ==> !(ops[i].Accept? && ops[i].now == t)
  }

  /** Without a retry at the journalled clock, a half-done acceptance stays half done through any
      deliveries, retries and crashes, and nothing further is journalled or recorded. */
  lemma {:induction false} HalfDoneStays(x: Ctx, s: Store, claims: seq<Claim>, ops: seq<Op>)
    requires x.Injective() && Inv(x, s, claims) && HalfDone(s)
    requires NeverAt(ops, claims[|s.records|].acceptedAt)
    ensures Run(x, s, ops).journal == s.journal && Run(x, s, ops).records == s.records
    decreases |ops|
  {
    if ops != [] {
      var op := ops[0];
      var t := Step(x, s, op).0;
      assert !(op.Accept? && op.now == claims[|s.records|].acceptedAt);
      HalfDoneStep(x, s, claims, op);
      assert forall i :: 0 <= i < |ops| - 1 ==> ops[1..][i] == ops[i + 1];
      HalfDoneStays(x, t, claims, ops[1..]);
    }
  }

  lemma HalfDoneStep(x: Ctx, s: Store, claims: seq<Claim>, op: Op)
    requires x.Injective() && Inv(x, s, claims) && HalfDone(s)
    requires !(op.Accept? && op.now == claims[|s.records|].acceptedAt)
    ensures var t := Step(x, s, op).0;
            Inv(x, t, claims) && t.journal == s.journal && t.records == s.records
  {
    var n := |s.records|;
    if op.Accept? {
      NextClaimFacts(x, s, claims, op.now);
      var c := NextClaim(x, s, op.now);
      if c.Some? { HalfDoneCommit(x, s, claims, c.value, op.writes); }
    } else {
      var claims' := StepKeepsInv(x, s, claims, op);
      assert claims' == claims;
    }
  }

  // ----- reading back -----

  /** The records of any run can be read back exactly when the newest accepted pair of producer
      files was canonically encoded; a pair that was not also blocks every later acceptance. */
  lemma ReadableIffNewestCanonical(x: Ctx, ops: seq<Op>)
    requires x.Injective()
    ensures var s := Run(x, EMPTY, ops);
            && (ReadAccepted(x, s).Some? <==> |s.records| == 0 || CanonicalAt(s.inbox, |s.records|))
            && (ReadAccepted(x, s).Some? ==> |ReadAccepted(x, s).value| == |s.records|)
  {
    var claims := RunIsSafe(x, ops);
    ReadableNow(x, Run(x, EMPTY, ops), claims);
  }

  lemma ReadableNow(x: Ctx, s: Store, claims: seq<Claim>)
    requires x.Injective() && Inv(x, s, claims)
    ensures ReadAccepted(x, s).Some? <==> |s.records| == 0 || CanonicalAt(s.inbox, |s.records|)
    ensures ReadAccepted(x, s).Some? ==> |ReadAccepted(x, s).value| == |s.records|
  {
    ReadReachable(x, s, claims);
    forall j | 1 <= j < |s.records| ensures CanonicalAt(s.inbox, j) {
      assert ClaimedAt(x, s, claims, j - 1);
    }
  }

  /** When every execution is accepted and readable, what is read never changes again. */
  lemma CompleteRunIsFixed(x: Ctx, s: Store, claims: seq<Claim>, ops: seq<Op>)
    requires x.Injective() && Inv(x, s, claims) && |s.records| == x.Size() && ReadAccepted(x, s).Some?
    ensures ReadAccepted(x, Run(x, s, ops)) == ReadAccepted(x, s)
  {
    var t := Run(x, s, ops);
    var claims' := RunKeepsInv(x, s, claims, ops);
    assert |claims| == x.Size() && claims' == claims;
    ReadReachable(x, s, claims);
    ReadReachable(x, t, claims);
    assert |s.records| == 0 || |s.records| in s.records;
    assert |t.records| == |s.records|;
    forall j | 1 <= j <= |t.records| ensures CanonicalAt(t.inbox, j) {
      assert CanonicalAt(s.inbox, j);
    }
  }

  /** Once unreadable, no clock ever accepts again. */
  lemma {:induction false} UnreadableStays(x: Ctx, s: Store, claims: seq<Claim>, ops: seq<Op>)
    requires x.Injective() && Inv(x, s, claims) && ReadAccepted(x, s).None?
    ensures Run(x, s, ops).journal == s.journal && Run(x, s, ops).records == s.records
    ensures ReadAccepted(x, Run(x, s, ops)).None?
    decreases |ops|
  {
    if ops != [] {
      var t := Step(x, s, ops[0]).0;
      var claims' := StepKeepsInv(x, s, claims, ops[0]);
      assert claims' == claims;
      ReadableNow(x, s, claims);
      ReadableNow(x, t, claims);
      assert ClaimedAt(x, s, claims, |s.records| - 1);
      UnreadableStays(x, t, claims, ops[1..]);
    }
  }

  ghost predicate CanonicalDeliveries(ops: seq<Op>) {
    forall i :: 0 <= i < |ops| ==>
      (ops[i].PutArtifact? ==> ops[i].contents.Canonical?) && (ops[i].PutReceipt? ==> ops[i].contents.Canonical?)
  }

  ghost predicate CanonicalInbox(b: Inbox) {
    && (forall i :: i in b.artifacts ==> b.artifacts[i].Canonical?)
    && (forall i :: i in b.receipts ==> b.receipts[i].Canonical?)
  }

  lemma {:induction false} DeliveriesStayCanonical(x: Ctx, s: Store, ops: seq<Op>)
    requires CanonicalInbox(s.inbox) && CanonicalDeliveries(ops)
    ensures CanonicalInbox(Run(x, s, ops).inbox)
    decreases |ops|
  {
    if ops != [] {
      assert forall i :: 0 <= i < |ops| - 1 ==> ops[1..][i] == ops[i + 1];
      assert CanonicalInbox(Step(x, s, ops[0]).0.inbox);
      DeliveriesStayCanonical(x, Step(x, s, ops[0]).0, ops[1..]);
    }
  }

  /** Producers that publish canonical files keep every run readable. */
  lemma CanonicalRunsAreReadable(x: Ctx, ops: seq<Op>)
    requires x.Injective() && CanonicalDeliveries(ops)
    ensures ReadAccepted(x, Run(x, EMPTY, ops)).Some?
  {
    DeliveriesStayCanonical(x, EMPTY, ops);
    var claims := RunIsSafe(x, ops);
    CanonicalInboxIsReadable(x, Run(x, EMPTY, ops), claims);
  }

  lemma CanonicalInboxIsReadable(x: Ctx, s: Store, claims: seq<Claim>)
    requires x.Injective() && Inv(x, s, claims) && CanonicalInbox(s.inbox)
    ensures ReadAccepted(x, s).Some?
  {
    ReadableNow(x, s, claims);
    if |s.records| > 0 {
      assert ClaimedAt(x, s, claims, |s.records| - 1);
    }
  }
}
