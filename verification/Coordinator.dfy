/** The run coordinator over its durable state: a journal appended in place, record files written
    once, and the loops that read and accept, each proved to move the store as the protocol does. */
module Coordinator {
  import opened Prelude
  import opened Acceptance
  import opened Available

  class RunCoordinator {
    const x: Ctx
    var journal: seq<Event>
    var records: map<nat, Bytes>
    var inbox: Inbox
    var executing: bool

    function View(): Store
      reads this
    {
      Store(journal, records, inbox, executing)
    }

    constructor (x: Ctx)
      ensures this.x == x && View() == EMPTY
    {
      this.x := x;
      journal, records, inbox, executing := [], map[], Inbox(map[], map[]), true;
    }

    /** Producers deliver into create-once files; the first delivery wins. */
    method PutArtifact(ordinal: nat, contents: Bytes) returns (created: bool)
      modifies this`inbox
      ensures View() == Step(x, old(View()), Op.PutArtifact(ordinal, contents)).0
      ensures created <==> ordinal !in old(inbox).artifacts
    {
      created := ordinal !in inbox.artifacts;
      if created { inbox := inbox.(artifacts := inbox.artifacts[ordinal := contents]); }
    }

    method PutReceipt(ordinal: nat, contents: Bytes) returns (created: bool)
      modifies this`inbox
      ensures View() == Step(x, old(View()), Op.PutReceipt(ordinal, contents)).0
      ensures created <==> ordinal !in old(inbox).receipts
    {
      created := ordinal !in inbox.receipts;
      if created { inbox := inbox.(receipts := inbox.receipts[ordinal := contents]); }
    }

    /** Journals an acceptance event once; a replay must be the very same event. */
    method RecordAcceptance(e: Event) returns (ok: bool)
      requires 1 <= e.ordinal
      modifies this`journal
      ensures var r := Journal(x, old(View()), e);
              ok == r.Some? && View() == if ok then r.value else old(View())
    {
      if !executing || !EventBound(x, e) { return false; }
      if e.ordinal <= |journal| { return journal[e.ordinal - 1] == e; }
      if e.ordinal != |journal| + 1 { return false; }
      journal := journal + [e];
      return true;
    }

    /** Writes the record file exclusively, or validates that it holds the same bytes. */
    method WriteOrValidateExact(ordinal: nat, r: Record) returns (ok: bool)
      modifies this`records
      ensures var w := WriteRecord(x, old(View()), ordinal, r);
              ok == w.Some? && View() == if ok then w.value else old(View())
    {
      if ordinal in records { return x.sha(records[ordinal]) == x.Digest(RecordDoc(r)); }
      records := records[ordinal := Canonical(RecordDoc(r))];
      return true;
    }

    /** Reads the records in order, checking each against the fold so far, up to the first missing
        one; any record after a missing one is an error. */
    method ReadAcceptedRecords() returns (accepted: Option<seq<Record>>)
      ensures accepted == ReadAccepted(x, View())
    {
      var previous, ordinal := x.initial, 1;
      var read: seq<Record> := [];
      ghost var all := ReadAccepted(x, View());
      assert all.Some? ==> [] + all.value == all.value;
      while ordinal <= x.Size() && ordinal in records
        invariant 1 <= ordinal <= x.Size() + 1
        invariant all == AppendTo(read, ReadFrom(x, View(), ordinal, previous))
      {
        var r := Checked(x, View(), ordinal, previous);
        if r.None? { return None; }
        AppendPrepend(read, r.value, ReadFrom(x, View(), ordinal + 1, r.value.claim.fold));
        read := read + [r.value];
        previous := r.value.claim.fold;
        ordinal := ordinal + 1;
      }
      for later := ordinal to x.Size() + 1
        invariant forall i :: ordinal <= i < later ==> i !in records
      {
        if later in records { return None; }
      }
      assert read + [] == read;
      return Some(read);
    }

    /** Accepts the next ordinal, dying after `writes` durable writes. */
    method AcceptNext(now: Time, writes: nat) returns (out: Outcome)
      modifies this`journal, this`records
      ensures (View(), out) == Acceptance.AcceptNext(x, old(View()), now, writes)
    {
      var accepted := ReadAcceptedRecords();
      if accepted.None? || |accepted.value| == x.Size() { return Refused; }
      var rs := accepted.value;
      var ordinal := |rs| + 1;
      var input := ProducerInput(x, inbox, ordinal, now);
      if input.None? { return Refused; }
      var prior := if rs == [] then x.initial else rs[|rs| - 1].claim.fold;
      var claim := ClaimOf(x, inbox, ordinal, prior, input.value.0, input.value.1, now);
      out := CommitClaim(claim, writes);
    }

    method CommitClaim(c: Claim, writes: nat) returns (out: Outcome)
      requires 1 <= c.ordinal
      modifies this`journal, this`records
      ensures (View(), out) == Commit(x, old(View()), c, writes)
    {
      if writes == 0 { return Crashed; }
      var journalled := RecordAcceptance(EventOf(x, c));
      if !journalled { return Refused; }
      if writes == 1 { return Crashed; }
      var r := RecordOf(x, c);
      var written := WriteOrValidateExact(c.ordinal, r);
      return if written then Accepted(r) else Refused;
    }

    /** Accepts contiguous deliveries until the next artifact is missing. */
    method AcceptAvailable(now: Time) returns (accepted: Option<seq<Record>>)
      modifies this`journal, this`records
      ensures (View(), accepted) == Available.AcceptAvailable(x, old(View()), now)
    {
      accepted := ReadAcceptedRecords();
      while accepted.Some? && |accepted.value| < x.Size() && |accepted.value| + 1 in inbox.artifacts
        invariant accepted == ReadAccepted(x, View())
        invariant Available.AcceptAvailable(x, View(), now) == Available.AcceptAvailable(x, old(View()), now)
        decreases |Missing(x, View())|
      {
        ghost var before := View();
        var out := AcceptNext(now, 2);
        if !out.Accepted? { return None; }
        AcceptanceFillsGap(x, before, now);
        accepted := ReadAcceptedRecords();
      }
    }
  }

  function AppendTo<T>(head: seq<T>, rest: Option<seq<T>>): Option<seq<T>> {
    if rest.None? then None else Some(head + rest.value)
  }

  lemma AppendPrepend<T>(head: seq<T>, e: T, rest: Option<seq<T>>)
    ensures AppendTo(head + [e], rest) == AppendTo(head, Prepend(e, rest))
  {
    if rest.Some? { assert (head + [e]) + rest.value == head + ([e] + rest.value); }
  }
}
