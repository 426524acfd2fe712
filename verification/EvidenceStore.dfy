/** The evidence store of one scenario over its files: an append that verifies both hash chains
    before writing, and a reader that verifies every attempt, as the loops the program runs. */
module EvidenceStore {
  import opened Prelude
  import opened Redaction
  import opened AttemptNames
  import opened Evidence

  class AttemptStore {
    const x: Ctx
    var tracked: seq<Json>
    var anchors: map<nat, Anchor>
    var indexes: map<nat, Index>

    function View(): Store
      reads this
    {
      Store(tracked, anchors, indexes)
    }

    constructor (x: Ctx)
      ensures this.x == x && View() == EMPTY
    {
      this.x := x;
      tracked, anchors, indexes := [], map[], map[];
    }

    /** Walks the sorted listing with the digests of the attempt before; returns whether every
        attempt verifies, and the last pair of digests. */
    method VerifyChains() returns (ok: bool, previous: Option<Digest>, previousAnchor: Option<Digest>)
      ensures ok == VerifiedFrom(x, View(), 1)
      ensures ok ==> previous == TrackedSha(x, View(), |tracked|) && previousAnchor == AnchorSha(x, View(), |tracked|)
    {
      previous, previousAnchor := None, None;
      var names := Listing(|tracked|);
      var i := 1;
      while i <= |tracked|
        invariant 1 <= i <= |tracked| + 1
        invariant VerifiedFrom(x, View(), 1) == VerifiedFrom(x, View(), i)
        invariant previous == TrackedSha(x, View(), i - 1) && previousAnchor == AnchorSha(x, View(), i - 1)
      {
        var s := View();
        if !InOrder(|tracked|, i) || !ChainedAt(x, s, i) || !NamedAt(x, s, i) {
          return false, previous, previousAnchor;
        }
        previous, previousAnchor := Some(x.shaTracked(tracked[i - 1])), Some(x.shaAnchor(anchors[i]));
        i := i + 1;
      }
      ok := true;
    }

    /** The three writes of an append, dying after `writes` of them. */
    method AppendAttempt(attempt: Json, writes: nat) returns (out: Outcome)
      modifies this`tracked, this`anchors, this`indexes
      ensures (View(), out) == Append(x, old(View()), attempt, writes)
    {
      var ok, previous, previousAnchor := VerifyChains();
      if !ok || !NextAttempt(x, View(), attempt) { return Refused; }
      var redacted := Redact(x.rules, attempt);
      if !Serializable(x, redacted) { return Refused; }
      var n := |tracked| + 1;
      if n in anchors { return Refused; }
      if writes == 0 { return Died(0); }
      var anchor := Anchor(x.scenario, AttemptId(n), x.shaTracked(redacted), previous, previousAnchor);
      anchors := anchors[n := anchor];
      if writes == 1 { return Died(1); }
      out := WriteRedacted(redacted, anchor, writes);
    }

    method WriteRedacted(redacted: Json, anchor: Anchor, writes: nat) returns (out: Outcome)
      modifies this`tracked, this`indexes
      ensures (View(), out) == WriteTracked(x, old(View()), redacted, anchor, writes)
    {
      var again := Redact(x.rules, redacted);
      if !Validate(x.rules, again) || !Serializable(x, again) { return Refused; }
      var n := |tracked| + 1;
      tracked := tracked + [again];
      if x.shaTracked(again) != anchor.tracked { return DiffersFromAnchor; }
      if writes == 2 { return Died(2); }
      if n in indexes { return Refused; }
      indexes := indexes[n := Index(x.shaTracked(again), x.shaAnchor(anchor))];
      return Stored(x.shaTracked(again));
    }

    method VerifiedAttemptPayloads() returns (payloads: Option<seq<Json>>)
      ensures payloads == ReadAttempts(x, View())
    {
      var read: seq<Json> := [];
      ghost var all := ReadAttempts(x, View());
      var i := 1;
      assert all.Some? ==> read + all.value == all.value;
      while i <= |tracked|
        invariant 1 <= i <= |tracked| + 1
        invariant match ReadFrom(x, View(), i)
                  case None => all == None
                  case Some(rest) => all == Some(read + rest)
      {
        if !InOrder(|tracked|, i) || !ChainedAt(x, View(), i) { return None; }
        ghost var rest := ReadFrom(x, View(), i + 1);
        assert rest.Some? ==> read + ([tracked[i - 1]] + rest.value) == (read + [tracked[i - 1]]) + rest.value;
        read := read + [tracked[i - 1]];
        i := i + 1;
      }
      assert read + [] == read;
      return Some(read);
    }
  }
}
