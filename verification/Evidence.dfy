/** The append-only attempt store of one scenario: a protected anchor, a tracked file and an
    integrity index per attempt, each created once, in that order; two interleaved hash chains;
    and the verifying reader. */
module Evidence {
  import opened Prelude
  import opened Redaction
  import opened AttemptNames

  type Digest = nat

  datatype Anchor = Anchor(
    scenario: string, id: string, tracked: Digest, previousAttempt: Option<Digest>, previousAnchor: Option<Digest>)

  datatype Index = Index(tracked: Digest, anchor: Digest)

  /** The scenario, its redaction rules, and the digests of canonical files. */
  datatype Ctx = Ctx(
    rules: Rules, scenario: string, hex: Digest -> string, shaTracked: Json -> Digest, shaAnchor: Anchor -> Digest,
    textClean: Json -> bool)
  {
    /** Redaction spares the protocol's own fields: digests and attempt ids hold no secret or phone
        number, and their keys are not sensitive. */
    ghost predicate Valid() {
      && rules.Valid()
      && (forall d :: !rules.Leaks(hex(d)))
      && (forall n :: !rules.Leaks(AttemptId(n)))
      && rules.Plain("scenario_id") && rules.Plain("attempt_number") && rules.Plain("attempt_id")
      && rules.Plain("previous_attempt_sha256")
    }

    /** Redaction leaves the scenario's own name alone. A name of ten digits looks like a phone
        number and is not left alone. */
    predicate Spared() { rules.Scrub(scenario) == scenario }

    ghost predicate TracesFiles(trace: Digest -> Json) { forall v :: trace(shaTracked(v)) == v }

    ghost predicate TracesAnchors(trace: Digest -> Anchor) { forall a :: trace(shaAnchor(a)) == a }

    /** No two tracked files and no two anchors share a digest. */
    ghost predicate Injective() {
      (exists files :: TracesFiles(files)) && (exists anchors :: TracesAnchors(anchors))
    }
  }

  /** `tracked[k]` is the file of attempt `k + 1`: a new file is always named after the count of
      the files before it plus one. Anchors and indexes are keyed by attempt number. */
  datatype Store = Store(tracked: seq<Json>, anchors: map<nat, Anchor>, indexes: map<nat, Index>)

  const EMPTY: Store := Store([], map[], map[])

  /** `Died(k)`: the process died after `k` of the three writes. */
  datatype Outcome = Stored(digest: Digest) | Refused | DiffersFromAnchor | Died(writes: nat)

  // ----- verification -----

  function TrackedSha(x: Ctx, s: Store, i: nat): Option<Digest>
    requires i <= |s.tracked|
  {
    if i == 0 then None else Some(x.shaTracked(s.tracked[i - 1]))
  }

  function AnchorSha(x: Ctx, s: Store, i: nat): Option<Digest> {
    if i == 0 || i !in s.anchors then None else Some(x.shaAnchor(s.anchors[i]))
  }

  function PreviousField(x: Ctx, d: Option<Digest>): Json {
    if d.None? then Null else Str(x.hex(d.value))
  }

  function GetOrNull(v: Json, key: string): Json {
    var r := Get(v, key);
    if r.None? then Null else r.value
  }

  /** The checks the reader makes of attempt `i`. */
  predicate ChainedAt(x: Ctx, s: Store, i: nat)
    requires 1 <= i <= |s.tracked|
  {
    && i in s.anchors && i in s.indexes
    && s.anchors[i].tracked == x.shaTracked(s.tracked[i - 1])
    && s.anchors[i].previousAnchor == AnchorSha(x, s, i - 1)
    && s.anchors[i].previousAttempt == TrackedSha(x, s, i - 1)
    && GetOrNull(s.tracked[i - 1], "previous_attempt_sha256") == PreviousField(x, TrackedSha(x, s, i - 1))
    && s.indexes[i] == Index(x.shaTracked(s.tracked[i - 1]), x.shaAnchor(s.anchors[i]))
    && s.tracked[i - 1].Obj?
  }

  /** The further checks made before appending: whose attempt this is. */
  predicate NamedAt(x: Ctx, s: Store, i: nat)
    requires 1 <= i <= |s.tracked| && i in s.anchors
  {
    && s.anchors[i].id == AttemptId(i) && s.anchors[i].scenario == x.scenario
    && Get(s.tracked[i - 1], "attempt_id") == Some(Str(AttemptId(i)))
    && Get(s.tracked[i - 1], "attempt_number") == Some(Num(i))
    && Get(s.tracked[i - 1], "scenario_id") == Some(Str(x.scenario))
  }

  /** The `i`-th name of the sorted listing of `n` attempts is that of number `i`. */
  predicate InOrder(n: nat, i: nat)
    requires 1 <= i <= n
  {
    Listing(n)[i - 1] == FileName(i)
  }

  /** Walks the sorted listing from attempt `i`: every name must be the next number's. */
  function ReadFrom(x: Ctx, s: Store, i: nat): Option<seq<Json>>
    requires 1 <= i <= |s.tracked| + 1
    decreases |s.tracked| + 1 - i
  {
    if i == |s.tracked| + 1 then Some([])
    else if !InOrder(|s.tracked|, i) || !ChainedAt(x, s, i) then None
    else
      var rest := ReadFrom(x, s, i + 1);
      if rest.None? then None else Some([s.tracked[i - 1]] + rest.value)
  }

  /** The reader: every tracked payload in order, or nothing if anything fails to verify. */
  function ReadAttempts(x: Ctx, s: Store): Option<seq<Json>> { ReadFrom(x, s, 1) }

  /** The verification before an append. */
  predicate VerifiedFrom(x: Ctx, s: Store, i: nat)
    requires 1 <= i <= |s.tracked| + 1
    decreases |s.tracked| + 1 - i
  {
    i == |s.tracked| + 1
    || (InOrder(|s.tracked|, i) && ChainedAt(x, s, i) && NamedAt(x, s, i) && VerifiedFrom(x, s, i + 1))
  }

  // ----- appending -----

  /** The next attempt's identity fields are right. */
  predicate NextAttempt(x: Ctx, s: Store, attempt: Json) {
    var n := |s.tracked|;
    && attempt.Obj?
    && Get(attempt, "scenario_id") == Some(Str(x.scenario))
    && Get(attempt, "attempt_number") == Some(Num(n + 1))
    && Get(attempt, "attempt_id") == Some(Str(AttemptId(n + 1)))
    && GetOrNull(attempt, "previous_attempt_sha256") == PreviousField(x, TrackedSha(x, s, n))
  }

  predicate Serializable(x: Ctx, v: Json) { Validate(x.rules, v) && x.textClean(v) }

  function NextAnchor(x: Ctx, s: Store, redacted: Json): Anchor {
    var n := |s.tracked|;
    Anchor(x.scenario, AttemptId(n + 1), x.shaTracked(redacted), TrackedSha(x, s, n), AnchorSha(x, s, n))
  }

  /** Appends an attempt, dying after `writes` of the three writes. */
  function Append(x: Ctx, s: Store, attempt: Json, writes: nat): (Store, Outcome) {
    if !VerifiedFrom(x, s, 1) || !NextAttempt(x, s, attempt) then (s, Refused)
    else
      var redacted := Redact(x.rules, attempt);
      if !Serializable(x, redacted) then (s, Refused)
      else if |s.tracked| + 1 in s.anchors then (s, Refused)
      else if writes == 0 then (s, Died(0))
      else
        var anchor := NextAnchor(x, s, redacted);
        var s1 := s.(anchors := s.anchors[|s.tracked| + 1 := anchor]);
        if writes == 1 then (s1, Died(1)) else WriteTracked(x, s1, redacted, anchor, writes)
  }

  /** The second and third write: the redacted file, redacted once more on its way, and the
      integrity index. */
  function WriteTracked(x: Ctx, s: Store, redacted: Json, anchor: Anchor, writes: nat): (Store, Outcome) {
    var again := Redact(x.rules, redacted);
    if !Validate(x.rules, again) || !Serializable(x, again) then (s, Refused)
    else
      var s1 := s.(tracked := s.tracked + [again]);
      if x.shaTracked(again) != anchor.tracked then (s1, DiffersFromAnchor)
      else if writes == 2 then (s1, Died(2))
      else if |s.tracked| + 1 in s.indexes then (s1, Refused)
      else
        (s1.(indexes := s.indexes[|s.tracked| + 1 := Index(x.shaTracked(again), x.shaAnchor(anchor))]),
         Stored(x.shaTracked(again)))
  }

  datatype Op = Op(attempt: Json, writes: nat)

  function Run(x: Ctx, s: Store, ops: seq<Op>): Store
    decreases |ops|
  {
    if ops == [] then s else Run(x, Append(x, s, ops[0].attempt, ops[0].writes).0, ops[1..])
  }

  /** The attempts whose append was reported stored, in order. */
  function StoredAttempts(x: Ctx, s: Store, ops: seq<Op>): seq<Json>
    decreases |ops|
  {
    if ops == [] then []
    else
      var (t, out) := Append(x, s, ops[0].attempt, ops[0].writes);
      (if out.Stored? then [ops[0].attempt] else []) + StoredAttempts(x, t, ops[1..])
  }
}
