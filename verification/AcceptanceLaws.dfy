/** Safety of the accepted-record protocol over every interleaving of deliveries, acceptances at
    any clock, and crashes; and what its digests prove about tampering. */
module AcceptanceLaws {
  import opened Prelude
  import opened Acceptance

  // ----- the invariant -----

  /** The fold after the first `i` claims. */
  ghost function FoldAfter(x: Ctx, claims: seq<Claim>, i: nat): Digest
    requires i <= |claims|
  {
    if i == 0 then x.initial else claims[i - 1].fold
  }

  /** The claim is what the producers' files for its ordinal amount to at the time it was made. */
  ghost predicate Supported(x: Ctx, b: Inbox, ordinal: nat, prior: Digest, c: Claim) {
    && 1 <= ordinal <= x.Size()
    && ProducerInput(x, b, ordinal, c.acceptedAt) == Some((c.artifact, c.receipt))
    && c == ClaimOf(x, b, ordinal, prior, c.artifact, c.receipt, c.acceptedAt)
  }

  /** Both producer files are canonical encodings. */
  ghost predicate CanonicalAt(b: Inbox, i: nat) {
    i in b.artifacts && i in b.receipts && b.artifacts[i].Canonical? && b.receipts[i].Canonical?
  }

  /** Entry `i` of the journal, and its record if it has one, are those of claim `i`, made on top
      of the claim before. */
  ghost predicate ClaimedAt(x: Ctx, s: Store, claims: seq<Claim>, i: nat)
    requires i < |claims| == |s.journal|
  {
    && Supported(x, s.inbox, i + 1, FoldAfter(x, claims, i), claims[i])
    && s.journal[i] == EventOf(x, claims[i])
    && (i + 1 in s.records ==> s.records[i + 1] == Canonical(RecordDoc(RecordOf(x, claims[i]))))
    && (i + 1 < |claims| ==> CanonicalAt(s.inbox, i + 1))
  }

  /** The journal holds the events of `claims`, and all but perhaps the last have their record. */
  ghost predicate Inv(x: Ctx, s: Store, claims: seq<Claim>) {
    && |claims| == |s.journal| <= x.Size()
    && |s.records| <= |claims| <= |s.records| + 1
    && (forall i :: i in s.records <==> 1 <= i <= |s.records|)
    && (forall i :: 0 <= i < |claims| ==> ClaimedAt(x, s, claims, i))
  }

  // ----- the reader on a reachable store -----

  /** The reader accepts a record the protocol wrote exactly when the producer's two files were
      canonical encodings. */
  lemma RecordOkIffCanonical(x: Ctx, s: Store, ordinal: nat, prior: Digest, c: Claim)
    requires x.Injective() && Supported(x, s.inbox, ordinal, prior, c)
    requires ordinal <= |s.journal| && s.journal[ordinal - 1] == EventOf(x, c)
    ensures RecordOk(x, s, ordinal, prior, Canonical(RecordDoc(RecordOf(x, c))), RecordOf(x, c))
       <==> CanonicalAt(s.inbox, ordinal)
  {
    var a, r := s.inbox.artifacts[ordinal], s.inbox.receipts[ordinal];
    assert x.sha(a) == x.Digest(ArtifactDoc(c.artifact)) <==> a == Canonical(ArtifactDoc(c.artifact));
    assert x.sha(r) == x.Digest(ReceiptDoc(c.receipt)) <==> r == Canonical(ReceiptDoc(c.receipt));
  }

  /** One step of the reader, from one fold to the next. */
  lemma ReadStep(x: Ctx, s: Store, ordinal: nat, prior: Digest, c: Claim)
    requires x.Injective() && Supported(x, s.inbox, ordinal, prior, c)
    requires ordinal <= |s.journal| && s.journal[ordinal - 1] == EventOf(x, c)
    requires ordinal in s.records && s.records[ordinal] == Canonical(RecordDoc(RecordOf(x, c)))
    ensures ReadFrom(x, s, ordinal, prior)
         == if CanonicalAt(s.inbox, ordinal) then Prepend(RecordOf(x, c), ReadFrom(x, s, ordinal + 1, c.fold)) else None
  {
    RecordOkIffCanonical(x, s, ordinal, prior, c);
  }

  /** The records of claims `i` to `n`. */
  ghost function RecordsOf(x: Ctx, claims: seq<Claim>, i: nat, n: nat): (rs: seq<Record>)
    requires i <= n <= |claims|
    ensures |rs| == n - i
    decreases n - i
  {
    if i == n then [] else [RecordOf(x, claims[i])] + RecordsOf(x, claims, i + 1, n)
  }

  lemma {:induction false} RecordsAt(x: Ctx, claims: seq<Claim>, i: nat, n: nat, k: nat)
    requires i <= k < n <= |claims|
    ensures RecordsOf(x, claims, i, n)[k - i] == RecordOf(x, claims[k])
    decreases n - i
  {
    if i < k {
      RecordsAt(x, claims, i + 1, n, k);
      assert RecordsOf(x, claims, i, n)[k - i] == RecordsOf(x, claims, i + 1, n)[k - (i + 1)];
    }
  }

  ghost predicate AllCanonical(s: Store, from: nat) {
    forall j :: from <= j <= |s.records| ==> CanonicalAt(s.inbox, j)
  }

  lemma ReadEnd(x: Ctx, s: Store, claims: seq<Claim>, prior: Digest)
    requires Inv(x, s, claims)
    ensures ReadFrom(x, s, |s.records| + 1, prior) == Some([])
  {
    assert NothingAfter(x, s, |s.records| + 1);
  }

  /** What step `i` of the reader does. */
  ghost predicate LinkAt(x: Ctx, s: Store, claims: seq<Claim>, i: nat)
    requires i < |claims| && i < x.Size()
  {
    ReadFrom(x, s, i + 1, FoldAfter(x, claims, i))
    == if CanonicalAt(s.inbox, i + 1)
       then Prepend(RecordOf(x, claims[i]), ReadFrom(x, s, i + 2, claims[i].fold))
       else None
  }

  ghost predicate Linked(x: Ctx, s: Store, claims: seq<Claim>) {
    && |s.records| <= |claims| && |s.records| <= x.Size()
    && forall i :: 0 <= i < |s.records| ==> LinkAt(x, s, claims, i)
  }

  lemma LinksHold(x: Ctx, s: Store, claims: seq<Claim>)
    requires x.Injective() && Inv(x, s, claims)
    ensures Linked(x, s, claims)
  {
    forall i | 0 <= i < |s.records| ensures LinkAt(x, s, claims, i) {
      assert ClaimedAt(x, s, claims, i);
      ReadStep(x, s, i + 1, FoldAfter(x, claims, i), claims[i]);
    }
  }

  lemma {:induction false} ReadLinked(x: Ctx, s: Store, claims: seq<Claim>, i: nat)
    requires Linked(x, s, claims) && i <= |s.records|
    requires ReadFrom(x, s, |s.records| + 1, FoldAfter(x, claims, |s.records|)) == Some([])
    ensures ReadFrom(x, s, i + 1, FoldAfter(x, claims, i))
         == if AllCanonical(s, i + 1) then Some(RecordsOf(x, claims, i, |s.records|)) else None
    decreases |s.records| - i
  {
    if i < |s.records| {
      assert LinkAt(x, s, claims, i);
      ReadLinked(x, s, claims, i + 1);
    }
  }

  /** On every store the protocol can produce, the reader returns all records, or nothing if some
      producer file behind a record was not a canonical encoding. */
  lemma ReadReachable(x: Ctx, s: Store, claims: seq<Claim>)
    requires x.Injective() && Inv(x, s, claims)
    ensures ReadAccepted(x, s) == if AllCanonical(s, 1) then Some(RecordsOf(x, claims, 0, |s.records|)) else None
  {
    LinksHold(x, s, claims);
    ReadEnd(x, s, claims, FoldAfter(x, claims, |s.records|));
    ReadLinked(x, s, claims, 0);
  }

  // ----- one step -----

  /** `b` holds whatever `a` holds. */
  ghost predicate Within(a: Inbox, b: Inbox) {
    && (forall i :: i in a.artifacts ==> i in b.artifacts && b.artifacts[i] == a.artifacts[i])
    && (forall i :: i in a.receipts ==> i in b.receipts && b.receipts[i] == a.receipts[i])
  }

  /** Nothing is ever taken back: the journal grows at its end, and files keep their contents. */
  ghost predicate Extends(s: Store, t: Store) {
    && |s.journal| <= |t.journal| && t.journal[..|s.journal|] == s.journal
    && (forall i :: i in s.records ==> i in t.records && t.records[i] == s.records[i])
    && Within(s.inbox, t.inbox)
  }

  /** What the next acceptance claims, on a reachable store. */
  lemma NextClaimFacts(x: Ctx, s: Store, claims: seq<Claim>, now: Time)
    requires x.Injective() && Inv(x, s, claims)
    ensures var n := |s.records|;
            var c := NextClaim(x, s, now);
            if AllCanonical(s, 1) && n < x.Size() && ProducerInput(x, s.inbox, n + 1, now).Some? then
              c.Some? && c.value.acceptedAt == now && Supported(x, s.inbox, n + 1, FoldAfter(x, claims, n), c.value)
            else c.None?
  {
    ReadReachable(x, s, claims);
    var n := |s.records|;
    if AllCanonical(s, 1) && n > 0 { RecordsAt(x, claims, 0, n, n - 1); }
  }

  /** A claim determines its event, and the event the claim. */
  lemma EventsAreUnique(x: Ctx, c: Claim, d: Claim)
    requires x.Injective() && EventOf(x, c) == EventOf(x, d)
    ensures c == d
  {
    assert x.Digest(ClaimDoc(c)) == x.Digest(ClaimDoc(d));
  }

  /** Committing a supported claim on a store without a half-done acceptance, or the very claim
      that was half done. */
  lemma CommitKeepsInv(x: Ctx, s: Store, claims: seq<Claim>, c: Claim, writes: nat) returns (claims': seq<Claim>)
    requires x.Injective() && Inv(x, s, claims) && AllCanonical(s, 1) && |s.records| < x.Size()
    requires Supported(x, s.inbox, |s.records| + 1, FoldAfter(x, claims, |s.records|), c)
    ensures var t := Commit(x, s, c, writes).0;
            Inv(x, t, claims') && Extends(s, t) && claims <= claims'
  {
    var n := |s.records|;
    var (t, out) := Commit(x, s, c, writes);
    claims' := claims;
    if |s.journal| == n + 1 {
      HalfDoneCommit(x, s, claims, c, writes);
    } else if writes > 0 && s.executing {
      claims' := claims + [c];
      FreshCommit(x, s, claims, c, writes);
    }
  }

  lemma HalfDoneCommit(x: Ctx, s: Store, claims: seq<Claim>, c: Claim, writes: nat)
    requires x.Injective() && Inv(x, s, claims) && |s.records| < x.Size() && |s.journal| == |s.records| + 1
    requires c.ordinal == |s.records| + 1 && c.artifact.execution == x.executions[|s.records|]
    ensures var n := |s.records|;
            var written := s.(records := s.records[n + 1 := Canonical(RecordDoc(RecordOf(x, c)))]);
            Commit(x, s, c, writes) ==
              if writes == 0 then (s, Crashed)
              else if !s.executing || c != claims[n] then (s, Refused)
              else if writes == 1 then (s, Crashed)
              else (written, Accepted(RecordOf(x, c)))
    ensures Inv(x, Commit(x, s, c, writes).0, claims) && Extends(s, Commit(x, s, c, writes).0)
  {
    var n := |s.records|;
    assert ClaimedAt(x, s, claims, n);
    if EventOf(x, c) == s.journal[n] { EventsAreUnique(x, c, claims[n]); }
    if c == claims[n] {
      WriteKeepsInv(x, s, claims, c);
    }
  }

  /** Writing the record of the last claim. */
  lemma WriteKeepsInv(x: Ctx, s: Store, claims: seq<Claim>, c: Claim)
    requires Inv(x, s, claims) && |claims| == |s.records| + 1 && c == claims[|s.records|]
    ensures var t := s.(records := s.records[|s.records| + 1 := Canonical(RecordDoc(RecordOf(x, c)))]);
            Inv(x, t, claims) && Extends(s, t)
  {
    var n := |s.records|;
    var t := s.(records := s.records[n + 1 := Canonical(RecordDoc(RecordOf(x, c)))]);
    assert |t.records| == n + 1;
    forall i | 0 <= i < |claims| ensures ClaimedAt(x, t, claims, i) {
      assert ClaimedAt(x, s, claims, i);
    }
  }

  lemma JournalKeepsInv(x: Ctx, s: Store, claims: seq<Claim>, c: Claim)
    requires Inv(x, s, claims) && AllCanonical(s, 1) && |claims| == |s.records| < x.Size()
    requires Supported(x, s.inbox, |claims| + 1, FoldAfter(x, claims, |claims|), c)
    ensures var t := s.(journal := s.journal + [EventOf(x, c)]);
            Inv(x, t, claims + [c]) && Extends(s, t)
  {
    var t := s.(journal := s.journal + [EventOf(x, c)]);
    forall i | 0 <= i < |claims| + 1 ensures ClaimedAt(x, t, claims + [c], i) {
      if i < |claims| {
        assert ClaimedAt(x, s, claims, i);
        assert FoldAfter(x, claims + [c], i) == FoldAfter(x, claims, i);
      }
    }
  }

  lemma FreshCommit(x: Ctx, s: Store, claims: seq<Claim>, c: Claim, writes: nat)
    requires Inv(x, s, claims) && AllCanonical(s, 1) && |claims| == |s.records| < x.Size()
    requires s.executing && writes > 0
    requires Supported(x, s.inbox, |claims| + 1, FoldAfter(x, claims, |claims|), c)
    ensures var t := Commit(x, s, c, writes).0;
            Inv(x, t, claims + [c]) && Extends(s, t)
  {
    JournalKeepsInv(x, s, claims, c);
    var t := s.(journal := s.journal + [EventOf(x, c)]);
    if writes > 1 {
      WriteKeepsInv(x, t, claims + [c], c);
    }
  }

  /** A delivery disturbs nothing that was there. */
  lemma DeliveryKeepsInv(x: Ctx, s: Store, claims: seq<Claim>, b: Inbox)
    requires Inv(x, s, claims) && Within(s.inbox, b)
    ensures Inv(x, s.(inbox := b), claims) && Extends(s, s.(inbox := b))
  {
    forall i | 0 <= i < |claims| ensures ClaimedAt(x, s.(inbox := b), claims, i) {
      assert ClaimedAt(x, s, claims, i);
    }
  }

  lemma StepKeepsInv(x: Ctx, s: Store, claims: seq<Claim>, op: Op) returns (claims': seq<Claim>)
    requires x.Injective() && Inv(x, s, claims)
    ensures var t := Step(x, s, op).0;
            Inv(x, t, claims') && Extends(s, t) && claims <= claims'
  {
    claims' := claims;
    match op
    case PutArtifact(_, _) => DeliveryKeepsInv(x, s, claims, Step(x, s, op).0.inbox);
    case PutReceipt(_, _) => DeliveryKeepsInv(x, s, claims, Step(x, s, op).0.inbox);
    case LeaveExecuting =>
      forall i | 0 <= i < |claims| ensures ClaimedAt(x, s.(executing := false), claims, i) {
        assert ClaimedAt(x, s, claims, i);
      }
    case Accept(now, writes) =>
      NextClaimFacts(x, s, claims, now);
      var c := NextClaim(x, s, now);
      if c.Some? { claims' := CommitKeepsInv(x, s, claims, c.value, writes); }
  }
}
