/** Accepting everything that has been delivered: repeat the acceptance of the next ordinal until
    its artifact is missing. */
module Available {
  import opened Prelude
  import opened Acceptance
  import opened AcceptanceLaws
  import opened AcceptanceSafety

  function Missing(x: Ctx, s: Store): set<nat> {
    set i: nat | 1 <= i <= x.Size() && i !in s.records
  }

  /** The reader stops at an ordinal without a record, or at the end. */
  lemma {:induction false} ReaderStopsAtGap(x: Ctx, s: Store, ordinal: nat, prior: Digest)
    requires 1 <= ordinal <= x.Size() + 1
    ensures var r := ReadFrom(x, s, ordinal, prior);
            r.Some? && ordinal + |r.value| <= x.Size() ==> ordinal + |r.value| !in s.records
    decreases x.Size() + 1 - ordinal
  {
    if ordinal <= x.Size() && ordinal in s.records {
      var r := Checked(x, s, ordinal, prior);
      if r.Some? { ReaderStopsAtGap(x, s, ordinal + 1, r.value.claim.fold); }
    }
  }

  /** An acceptance fills the gap the reader stopped at. */
  lemma AcceptanceFillsGap(x: Ctx, s: Store, now: Time)
    requires AcceptNext(x, s, now, 2).1.Accepted?
    ensures var t := AcceptNext(x, s, now, 2).0;
            Missing(x, t) < Missing(x, s) && |Missing(x, t)| < |Missing(x, s)|
  {
    ReaderStopsAtGap(x, s, 1, x.initial);
    var t := AcceptNext(x, s, now, 2).0;
    var ordinal := NextClaim(x, s, now).value.ordinal;
    assert ordinal in Missing(x, s) && ordinal !in Missing(x, t);
    assert Missing(x, t) == Missing(x, s) - {ordinal};
  }

  /** The store after accepting what is available, and the accepted records; no records when some
      step is refused. */
  function AcceptAvailable(x: Ctx, s: Store, now: Time): (Store, Option<seq<Record>>)
    decreases |Missing(x, s)|
  {
    var records := ReadAccepted(x, s);
    if records.None? then (s, None)
    else if |records.value| == x.Size() || |records.value| + 1 !in s.inbox.artifacts then (s, records)
    else
      var r := AcceptNext(x, s, now, 2);
      if !r.1.Accepted? then (r.0, None)
      else
        AcceptanceFillsGap(x, s, now);
        AcceptAvailable(x, r.0, now)
  }

  /** It returns exactly when every record reads back and the next artifact is not there. Calling
      it again at any later time then accepts nothing more. */
  lemma {:induction false} AvailableStops(x: Ctx, s: Store, now: Time, later: Time)
    ensures var (t, records) := AcceptAvailable(x, s, now);
            records.Some? ==>
              && ReadAccepted(x, t) == records
              && (|records.value| == x.Size() || |records.value| + 1 !in t.inbox.artifacts)
              && AcceptAvailable(x, t, later) == (t, records)
    decreases |Missing(x, s)|
  {
    var r := AcceptNext(x, s, now, 2);
    if r.1.Accepted? {
      AcceptanceFillsGap(x, s, now);
      AvailableStops(x, r.0, now, later);
    }
  }

  ghost predicate AllAccepts(ops: seq<Op>, now: Time) {
    forall i :: 0 <= i < |ops| ==> ops[i] == Accept(now, 2)
  }

  /** It is nothing but acceptances at one clock. */
  lemma {:induction false} AvailableIsRun(x: Ctx, s: Store, now: Time) returns (ops: seq<Op>)
    ensures AllAccepts(ops, now) && Run(x, s, ops) == AcceptAvailable(x, s, now).0
    decreases |Missing(x, s)|
  {
    var records := ReadAccepted(x, s);
    ops := [];
    if records.Some? && |records.value| < x.Size() && |records.value| + 1 in s.inbox.artifacts {
      var r := AcceptNext(x, s, now, 2);
      var rest := [];
      if r.1.Accepted? {
        AcceptanceFillsGap(x, s, now);
        rest := AvailableIsRun(x, r.0, now);
      }
      ops := [Accept(now, 2)] + rest;
      assert ops[1..] == rest;
    }
  }

  /** So it is as safe as any run: the store it leaves holds the journal and the records of one list
      of claims, which continues the one before, and nothing that was there is changed. */
  lemma AvailableIsSafe(x: Ctx, s: Store, claims: seq<Claim>, now: Time) returns (claims': seq<Claim>)
    requires x.Injective() && Inv(x, s, claims)
    ensures var t := AcceptAvailable(x, s, now).0;
            Inv(x, t, claims') && claims <= claims' && Extends(s, t)
  {
    var ops := AvailableIsRun(x, s, now);
    claims' := RunKeepsInv(x, s, claims, ops);
  }

  /** Every delivered pair from `i` to `m` is canonical and acceptable at `now`. */
  ghost predicate Deliverable(x: Ctx, b: Inbox, from: nat, m: nat, now: Time)
    requires m <= x.Size()
  {
    forall i :: from < i <= m ==> i > 0 && DeliverableAt(x, b, i, now)
  }

  ghost predicate DeliverableAt(x: Ctx, b: Inbox, i: nat, now: Time)
    requires 1 <= i <= x.Size()
  {
    ProducerInput(x, b, i, now).Some? && CanonicalAt(b, i)
  }

  /** Without a half-done acceptance in the way, everything delivered up to `m` is accepted. */
  lemma {:induction false} AvailableAcceptsAll(x: Ctx, s: Store, claims: seq<Claim>, m: nat, now: Time)
    requires x.Injective() && Inv(x, s, claims) && s.executing && !HalfDone(s)
    requires |s.records| <= m <= x.Size() && AllCanonical(s, 1) && Deliverable(x, s.inbox, |s.records|, m, now)
    requires m == x.Size() || m + 1 !in s.inbox.artifacts
    ensures var (t, records) := AcceptAvailable(x, s, now);
            |t.records| == m && records.Some? && |records.value| == m
    decreases m - |s.records|
  {
    if |s.records| < m {
      var claims', t := AcceptsDelivered(x, s, claims, m, now);
      AvailableAcceptsAll(x, t, claims', m, now);
    } else {
      ReadReachable(x, s, claims);
    }
  }

  /** One more of what was delivered. */
  lemma AcceptsDelivered(x: Ctx, s: Store, claims: seq<Claim>, m: nat, now: Time)
    returns (claims': seq<Claim>, t: Store)
    requires x.Injective() && Inv(x, s, claims) && s.executing && !HalfDone(s)
    requires |s.records| < m <= x.Size() && AllCanonical(s, 1) && Deliverable(x, s.inbox, |s.records|, m, now)
    ensures AcceptAvailable(x, s, now) == AcceptAvailable(x, t, now)
    ensures Inv(x, t, claims') && t.executing && !HalfDone(t) && t.inbox == s.inbox
    ensures |t.records| == |s.records| + 1
    ensures AllCanonical(t, 1) && Deliverable(x, t.inbox, |t.records|, m, now)
  {
    var n := |s.records|;
    ReadReachable(x, s, claims);
    assert DeliverableAt(x, s.inbox, n + 1, now);
    claims', t := AcceptsNext(x, s, claims, now);
    AvailableGoesOn(x, s, now);
    assert CanonicalAt(t.inbox, n + 1);
  }

  lemma AvailableGoesOn(x: Ctx, s: Store, now: Time)
    requires ReadAccepted(x, s).Some? && |ReadAccepted(x, s).value| < x.Size()
    requires |ReadAccepted(x, s).value| + 1 in s.inbox.artifacts && AcceptNext(x, s, now, 2).1.Accepted?
    ensures AcceptAvailable(x, s, now) == AcceptAvailable(x, AcceptNext(x, s, now, 2).0, now)
  {
  }

  lemma AcceptsNext(x: Ctx, s: Store, claims: seq<Claim>, now: Time) returns (claims': seq<Claim>, t: Store)
    requires x.Injective() && Inv(x, s, claims) && s.executing && !HalfDone(s) && AllCanonical(s, 1)
    requires |s.records| < x.Size() && ProducerInput(x, s.inbox, |s.records| + 1, now).Some?
    ensures t == AcceptNext(x, s, now, 2).0 && AcceptNext(x, s, now, 2).1.Accepted?
    ensures Inv(x, t, claims') && |t.records| == |s.records| + 1 && !HalfDone(t)
    ensures t.inbox == s.inbox && t.executing
  {
    NextClaimFacts(x, s, claims, now);
    var c := NextClaim(x, s, now).value;
    FreshCommit(x, s, claims, c, 2);
    claims' := claims + [c];
    t := AcceptNext(x, s, now, 2).0;
    assert |s.records| + 1 !in s.records;
  }
}
