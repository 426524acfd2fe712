/** What acceptance by the reader proves about stores nobody vouches for: the journal fixes every
    record, and the last fold digest fixes every artifact and receipt before it. */
module Tamper {
  import opened Prelude
  import opened Acceptance

  /** The reader's check of the `k`-th record of `rs`, read from `ordinal` on top of `prior`. */
  ghost predicate ReadAt(x: Ctx, s: Store, ordinal: nat, prior: Digest, rs: seq<Record>, k: nat)
    requires k < |rs| && 1 <= ordinal && ordinal + |rs| <= x.Size() + 1
  {
    && ordinal + k in s.records
    && RecordOk(x, s, ordinal + k, if k == 0 then prior else rs[k - 1].claim.fold, s.records[ordinal + k], rs[k])
  }

  /** Every record of `rs` passes the reader's checks. */
  ghost predicate AllRead(x: Ctx, s: Store, ordinal: nat, prior: Digest, rs: seq<Record>) {
    1 <= ordinal && ordinal + |rs| <= x.Size() + 1 && forall k :: 0 <= k < |rs| ==> ReadAt(x, s, ordinal, prior, rs, k)
  }

  lemma {:induction false} ReaderChecks(x: Ctx, s: Store, ordinal: nat, prior: Digest, rs: seq<Record>)
    requires 1 <= ordinal <= x.Size() + 1 && ReadFrom(x, s, ordinal, prior) == Some(rs)
    ensures AllRead(x, s, ordinal, prior, rs)
    decreases |rs|
  {
    if rs != [] {
      var r := Checked(x, s, ordinal, prior).value;
      assert rs[1..] == ReadFrom(x, s, ordinal + 1, r.claim.fold).value;
      ReaderChecks(x, s, ordinal + 1, r.claim.fold, rs[1..]);
      forall k | 0 <= k < |rs| ensures ReadAt(x, s, ordinal, prior, rs, k) {
        if k > 0 { assert ReadAt(x, s, ordinal + 1, r.claim.fold, rs[1..], k - 1); }
      }
    }
  }

  /** Two stores read against the same journal hold the same record, byte for byte, at every
      ordinal both have. */
  lemma SameJournalSameRecords(x: Ctx, s: Store, t: Store)
    requires x.Injective() && s.journal == t.journal
    requires ReadAccepted(x, s).Some? && ReadAccepted(x, t).Some?
    ensures var rs, rt := ReadAccepted(x, s).value, ReadAccepted(x, t).value;
            SameRecords(s, t, rs, rt) && (|rs| == |rt| ==> rs == rt)
  {
    var rs, rt := ReadAccepted(x, s).value, ReadAccepted(x, t).value;
    ReaderChecks(x, s, 1, x.initial, rs);
    ReaderChecks(x, t, 1, x.initial, rt);
    RecordsAgree(x, s, t, rs, rt);
  }

  ghost predicate SameRecords(s: Store, t: Store, rs: seq<Record>, rt: seq<Record>) {
    forall k :: 0 <= k < |rs| && k < |rt| ==>
      rs[k] == rt[k] && k + 1 in s.records && k + 1 in t.records && s.records[k + 1] == t.records[k + 1]
  }

  lemma RecordsAgree(x: Ctx, s: Store, t: Store, rs: seq<Record>, rt: seq<Record>)
    requires x.Injective() && s.journal == t.journal
    requires AllRead(x, s, 1, x.initial, rs) && AllRead(x, t, 1, x.initial, rt)
    ensures SameRecords(s, t, rs, rt)
    ensures |rs| == |rt| ==> rs == rt
  {
    forall k | 0 <= k < |rs| && k < |rt|
      ensures rs[k] == rt[k] && k + 1 in s.records && k + 1 in t.records && s.records[k + 1] == t.records[k + 1]
    {
      assert ReadAt(x, s, 1, x.initial, rs, k) && ReadAt(x, t, 1, x.initial, rt, k);
      SameEventSameRecord(x, s, t, k + 1, if k == 0 then x.initial else rs[k - 1].claim.fold,
                          if k == 0 then x.initial else rt[k - 1].claim.fold, rs[k], rt[k]);
    }
  }

  lemma SameEventSameRecord(x: Ctx, s: Store, t: Store, ordinal: nat, prior: Digest, prior': Digest,
                            r: Record, r': Record)
    requires x.Injective() && s.journal == t.journal && 1 <= ordinal <= x.Size()
    requires ordinal in s.records && RecordOk(x, s, ordinal, prior, s.records[ordinal], r)
    requires ordinal in t.records && RecordOk(x, t, ordinal, prior', t.records[ordinal], r')
    ensures r == r' && s.records[ordinal] == t.records[ordinal]
  {
    assert x.Digest(ClaimDoc(r.claim)) == x.Digest(ClaimDoc(r'.claim));
    assert r.claim == r'.claim;
  }

  /** One link of the fold chain, read backwards. */
  lemma FoldLink(x: Ctx, y: Ctx, s: Store, t: Store, i: nat, j: nat, prior: Digest, prior': Digest,
                 r: Record, r': Record)
    requires x.Injective() && y.sha == x.sha && 1 <= i <= x.Size() && 1 <= j <= y.Size()
    requires i in s.records && RecordOk(x, s, i, prior, s.records[i], r)
    requires j in t.records && RecordOk(y, t, j, prior', t.records[j], r')
    requires r.claim.fold == r'.claim.fold
    ensures i == j && prior == prior'
    ensures r.claim.artifact == r'.claim.artifact && r.claim.receipt == r'.claim.receipt
  {
    var c, c' := r.claim, r'.claim;
    assert FoldDoc(prior, c.artifactSha, c.receiptSha, i, x.executions[i - 1])
        == FoldDoc(prior', c'.artifactSha, c'.receiptSha, j, y.executions[j - 1]);
    assert ArtifactDoc(c.artifact) == ArtifactDoc(c'.artifact);
    assert ReceiptDoc(c.receipt) == ReceiptDoc(c'.receipt);
  }

  /** Two accepted runs with the same last fold digest, even under different registries and
      authorizations, have the same length and the same artifact and receipt at every ordinal:
      by descent along the chain. */
  lemma SameFoldSameEvidence(x: Ctx, y: Ctx, s: Store, t: Store)
    requires x.Injective() && y.sha == x.sha
    requires ReadAccepted(x, s).Some? && ReadAccepted(y, t).Some?
    requires var rs, rt := ReadAccepted(x, s).value, ReadAccepted(y, t).value;
             rs != [] && rt != [] && rs[|rs| - 1].claim.fold == rt[|rt| - 1].claim.fold
    ensures var rs, rt := ReadAccepted(x, s).value, ReadAccepted(y, t).value;
            |rs| == |rt| && forall k :: 0 <= k < |rs| ==>
              rs[k].claim.artifact == rt[k].claim.artifact && rs[k].claim.receipt == rt[k].claim.receipt
  {
    var rs, rt := ReadAccepted(x, s).value, ReadAccepted(y, t).value;
    ReaderChecks(x, s, 1, x.initial, rs);
    ReaderChecks(y, t, 1, y.initial, rt);
    EvidenceAgrees(x, y, s, t, rs, rt);
  }

  lemma EvidenceAgrees(x: Ctx, y: Ctx, s: Store, t: Store, rs: seq<Record>, rt: seq<Record>)
    requires x.Injective() && y.sha == x.sha && rs != [] && rt != []
    requires AllRead(x, s, 1, x.initial, rs) && AllRead(y, t, 1, y.initial, rt)
    requires rs[|rs| - 1].claim.fold == rt[|rt| - 1].claim.fold
    ensures |rs| == |rt| && forall k :: 0 <= k < |rs| ==>
              rs[k].claim.artifact == rt[k].claim.artifact && rs[k].claim.receipt == rt[k].claim.receipt
  {
    SameLength(x, y, s, t, rs, rt);
    FoldDescent(x, y, s, t, rs, rt, |rs|);
  }

  lemma SameLength(x: Ctx, y: Ctx, s: Store, t: Store, rs: seq<Record>, rt: seq<Record>)
    requires x.Injective() && y.sha == x.sha
    requires 0 < |rs| <= x.Size() && 0 < |rt| <= y.Size()
    requires ReadAt(x, s, 1, x.initial, rs, |rs| - 1) && ReadAt(y, t, 1, y.initial, rt, |rt| - 1)
    requires rs[|rs| - 1].claim.fold == rt[|rt| - 1].claim.fold
    ensures |rs| == |rt|
  {
    FoldLink(x, y, s, t, |rs|, |rt|, if |rs| == 1 then x.initial else rs[|rs| - 2].claim.fold,
             if |rt| == 1 then y.initial else rt[|rt| - 2].claim.fold, rs[|rs| - 1], rt[|rt| - 1]);
  }

  lemma {:induction false} FoldDescent(x: Ctx, y: Ctx, s: Store, t: Store, rs: seq<Record>, rt: seq<Record>, n: nat)
    requires x.Injective() && y.sha == x.sha
    requires n <= |rs| == |rt| && AllRead(x, s, 1, x.initial, rs) && AllRead(y, t, 1, y.initial, rt)
    requires n > 0 ==> rs[n - 1].claim.fold == rt[n - 1].claim.fold
    ensures forall k :: 0 <= k < n ==>
              rs[k].claim.artifact == rt[k].claim.artifact && rs[k].claim.receipt == rt[k].claim.receipt
  {
    if n > 0 {
      assert ReadAt(x, s, 1, x.initial, rs, n - 1) && ReadAt(y, t, 1, y.initial, rt, n - 1);
      FoldLink(x, y, s, t, n, n, if n == 1 then x.initial else rs[n - 2].claim.fold,
               if n == 1 then y.initial else rt[n - 2].claim.fold, rs[n - 1], rt[n - 1]);
      FoldDescent(x, y, s, t, rs, rt, n - 1);
    }
  }
}
