/** The accepted-record protocol as a pure state machine: journal the acceptance event, then
    write the record exclusively, with a crash possible before either write and a hash fold
    linking the records. Ordinals start at 1. */
module Acceptance {
  import opened Prelude

  type Digest = nat
  type Time = int

  /** How old an observation may be when it is accepted, in seconds. */
  const FRESHNESS: Time := 900

  datatype Artifact = Artifact(
    registry: nat, run: nat, auth: nat, sealedPlan: nat, ordinal: nat, execution: Name, kind: Name,
    producer: Name, observed: Time, source: nat, sourceSha: Digest)

  datatype Receipt = Receipt(
    registry: nat, run: nat, auth: nat, ordinal: nat, execution: Name, producer: Name,
    artifactSha: Digest, sourceSha: Digest, issued: Time, expires: Time)

  /** Everything in an accepted record except the digest of its journal event. */
  datatype Claim = Claim(
    registry: nat, run: nat, auth: nat, sealedPlan: nat, ordinal: nat, artifact: Artifact, receipt: Receipt,
    artifactSha: Digest, receiptSha: Digest, acceptedAt: Time, prior: Digest, fold: Digest)

  datatype Record = Record(claim: Claim, event: Digest)

  datatype Event = Event(
    run: nat, auth: nat, ordinal: nat, execution: Name, payload: Digest, prior: Digest, digest: Digest)

  /** The values that are ever digested or stored. */
  datatype Doc =
    | SourceDoc(source: nat)
    | ArtifactDoc(artifact: Artifact)
    | ReceiptDoc(receipt: Receipt)
    | FoldDoc(prior: Digest, artifactSha: Digest, receiptSha: Digest, ordinal: nat, execution: Name)
    | ClaimDoc(claim: Claim)
    | EventDoc(run: nat, auth: nat, ordinal: nat, execution: Name, payload: Digest, eventPrior: Digest)
    | RecordDoc(record: Record)

  /** File contents: the canonical encoding of a value, or any other bytes. */
  datatype Bytes = Canonical(doc: Doc) | Other(id: nat)

  /** The run: its identity, its canonical executions, who may produce what, and the digest and
      the parser it relies on. */
  datatype Ctx = Ctx(
    registry: nat, run: nat, auth: nat, sealedPlan: nat, executions: seq<Name>, kindOf: Name -> Name,
    mayProduce: (Name, Name) -> bool, sourceOk: (Name, nat) -> bool, initial: Digest,
    sha: Bytes -> Digest, parse: nat -> Option<Doc>)
  {
    ghost predicate Traces(trace: Digest -> Bytes) { forall b :: trace(sha(b)) == b }

    /** No two contents share a digest: each digest can be traced back to its contents. */
    ghost predicate Injective() { exists trace :: Traces(trace) }

    function Parse(b: Bytes): Option<Doc> {
      match b
      case Canonical(doc) => Some(doc)
      case Other(id) => parse(id)
    }

    function Digest(doc: Doc): Digest { sha(Canonical(doc)) }

    function Size(): nat { |executions| }
  }

  /** The producers' create-once files, one artifact and one receipt per ordinal. */
  datatype Inbox = Inbox(artifacts: map<nat, Bytes>, receipts: map<nat, Bytes>)

  /** The durable state: the journal of acceptance events, the create-once record files, and what
      the producers delivered. */
  datatype Store = Store(journal: seq<Event>, records: map<nat, Bytes>, inbox: Inbox, executing: bool)

  datatype Op =
    | PutArtifact(ordinal: nat, contents: Bytes)
    | PutReceipt(ordinal: nat, contents: Bytes)
    | Accept(now: Time, writes: nat)
    | LeaveExecuting

  datatype Outcome = Accepted(record: Record) | Refused | Crashed | Noted

  // ----- digests -----

  function FoldOf(x: Ctx, prior: Digest, artifactSha: Digest, receiptSha: Digest, ordinal: nat, execution: Name)
    : Digest
  {
    x.Digest(FoldDoc(prior, artifactSha, receiptSha, ordinal, execution))
  }

  /** The journal event of a claim: its digest covers everything but itself. */
  function EventOf(x: Ctx, c: Claim): Event {
    var payload := x.Digest(ClaimDoc(c));
    Event(x.run, x.auth, c.ordinal, c.artifact.execution, payload, c.prior,
          x.Digest(EventDoc(x.run, x.auth, c.ordinal, c.artifact.execution, payload, c.prior)))
  }

  function RecordOf(x: Ctx, c: Claim): Record { Record(c, EventOf(x, c).digest) }

  // ----- reading -----

  predicate Fresh(a: Artifact, r: Receipt, now: Time) {
    && a.observed <= now && now - a.observed <= FRESHNESS
    && a.observed <= r.issued < r.expires
    && r.issued <= now < r.expires
  }

  /** An artifact whose source is well formed and carries its own digest. */
  predicate SourceBound(x: Ctx, a: Artifact) {
    a.sourceSha == x.Digest(SourceDoc(a.source)) && x.sourceOk(a.kind, a.source)
  }

  /** Every binding the reader re-checks of the record at `ordinal`, after a record with fold
      `prior`, and the durable journal event it must match. */
  predicate RecordOk(x: Ctx, s: Store, ordinal: nat, prior: Digest, contents: Bytes, r: Record)
    requires 1 <= ordinal <= x.Size()
  {
    var c := r.claim;
    var a, rc := c.artifact, c.receipt;
    var execution := x.executions[ordinal - 1];
    var payload := x.Digest(ClaimDoc(c));
    var event := x.Digest(EventDoc(x.run, x.auth, ordinal, execution, payload, prior));
    && SourceBound(x, a)
    && c.registry == x.registry && c.run == x.run && c.auth == x.auth && c.sealedPlan == x.sealedPlan
    && c.ordinal == ordinal
    && a.execution == execution && a.ordinal == ordinal && a.kind == x.kindOf(execution)
    && x.mayProduce(a.kind, a.producer) && a.sealedPlan == x.sealedPlan
    && rc.ordinal == ordinal && rc.execution == execution && rc.producer == a.producer
    && rc.sourceSha == a.sourceSha
    && c.artifactSha == x.Digest(ArtifactDoc(a)) && c.receiptSha == x.Digest(ReceiptDoc(rc))
    && rc.artifactSha == c.artifactSha
    && Fresh(a, rc, c.acceptedAt)
    && c.prior == prior
    && c.fold == FoldOf(x, prior, c.artifactSha, c.receiptSha, ordinal, execution)
    && r.event == event
    && x.sha(contents) == x.Digest(RecordDoc(r))
    && ordinal <= |s.journal|
    && s.journal[ordinal - 1] == Event(x.run, x.auth, ordinal, execution, payload, prior, event)
  }

  /** The record file at `ordinal`, if it is there and passes every check. */
  function Checked(x: Ctx, s: Store, ordinal: nat, prior: Digest): Option<Record>
    requires 1 <= ordinal <= x.Size()
  {
    if ordinal !in s.records then None
    else
      var doc := x.Parse(s.records[ordinal]);
      if doc.None? || !doc.value.RecordDoc? then None
      else if RecordOk(x, s, ordinal, prior, s.records[ordinal], doc.value.record) then Some(doc.value.record)
      else None
  }

  predicate NothingAfter(x: Ctx, s: Store, ordinal: nat) {
    forall later :: ordinal < later <= x.Size() ==> later !in s.records
  }

  /** The accepted records from `ordinal` on; none when a record is invalid or out of order. */
  function ReadFrom(x: Ctx, s: Store, ordinal: nat, prior: Digest): (r: Option<seq<Record>>)
    requires 1 <= ordinal <= x.Size() + 1
    ensures r.Some? ==> |r.value| <= x.Size() + 1 - ordinal
    decreases x.Size() + 1 - ordinal, 1
  {
    if ordinal == x.Size() + 1 then Some([])
    else if ordinal !in s.records then (if NothingAfter(x, s, ordinal) then Some([]) else None)
    else ReadOn(x, s, ordinal, prior)
  }

  function ReadOn(x: Ctx, s: Store, ordinal: nat, prior: Digest): (r: Option<seq<Record>>)
    requires 1 <= ordinal <= x.Size()
    ensures r.Some? ==> |r.value| <= x.Size() + 1 - ordinal
    decreases x.Size() + 1 - ordinal, 0
  {
    var r := Checked(x, s, ordinal, prior);
    if r.None? then None
    else
      Prepend(r.value, ReadFrom(x, s, ordinal + 1, r.value.claim.fold))
  }

  function Prepend<T>(head: T, rest: Option<seq<T>>): (r: Option<seq<T>>)
    ensures r.Some? <==> rest.Some?
    ensures r.Some? ==> |r.value| == |rest.value| + 1
  {
    if rest.None? then None else Some([head] + rest.value)
  }

  function ReadAccepted(x: Ctx, s: Store): (r: Option<seq<Record>>)
    ensures r.Some? ==> |r.value| <= x.Size()
  {
    ReadFrom(x, s, 1, x.initial)
  }

  // ----- accepting -----

  /** The producer's artifact and receipt for `ordinal`, if they are bound to this run and fresh. */
  function ProducerInput(x: Ctx, b: Inbox, ordinal: nat, now: Time): (r: Option<(Artifact, Receipt)>)
    requires 1 <= ordinal <= x.Size()
    ensures r.Some? ==> ordinal in b.artifacts && ordinal in b.receipts
  {
    if ordinal !in b.artifacts || ordinal !in b.receipts then None
    else
      var da, dr := x.Parse(b.artifacts[ordinal]), x.Parse(b.receipts[ordinal]);
      if da.None? || !da.value.ArtifactDoc? || dr.None? || !dr.value.ReceiptDoc? then None
      else
        var a, r := da.value.artifact, dr.value.receipt;
        if Bound(x, ordinal, a, r) && r.artifactSha == x.sha(b.artifacts[ordinal]) && Fresh(a, r, now)
        then Some((a, r)) else None
  }

  /** Artifact and receipt name this run, this ordinal and its execution, and each other. */
  predicate Bound(x: Ctx, ordinal: nat, a: Artifact, r: Receipt)
    requires 1 <= ordinal <= x.Size()
  {
    var execution := x.executions[ordinal - 1];
    && SourceBound(x, a)
    && a.registry == x.registry && a.run == x.run && a.auth == x.auth && a.sealedPlan == x.sealedPlan
    && a.ordinal == ordinal && a.execution == execution && a.kind == x.kindOf(execution)
    && x.mayProduce(a.kind, a.producer)
    && r.registry == a.registry && r.run == a.run && r.auth == a.auth
    && r.ordinal == ordinal && r.execution == execution && r.producer == a.producer
    && r.sourceSha == a.sourceSha
  }

  /** What is claimed at `ordinal` on top of `prior` at time `now`. */
  function ClaimOf(x: Ctx, b: Inbox, ordinal: nat, prior: Digest, a: Artifact, r: Receipt, now: Time): Claim
    requires ordinal in b.artifacts && ordinal in b.receipts
  {
    var artifactSha, receiptSha := x.sha(b.artifacts[ordinal]), x.sha(b.receipts[ordinal]);
    Claim(x.registry, x.run, x.auth, x.sealedPlan, ordinal, a, r, artifactSha, receiptSha, now, prior,
          FoldOf(x, prior, artifactSha, receiptSha, ordinal, a.execution))
  }

  /** The event names this run, its authorization, and the execution authorized at its ordinal. */
  predicate EventBound(x: Ctx, e: Event)
    requires 1 <= e.ordinal
  {
    && e.run == x.run && e.auth == x.auth
    && e.ordinal <= x.Size() && e.execution == x.executions[e.ordinal - 1]
  }

  /** Journals an acceptance event of this run: appended in canonical order, or found to be there already. */
  function Journal(x: Ctx, s: Store, e: Event): Option<Store>
    requires 1 <= e.ordinal
  {
    if !s.executing || !EventBound(x, e) then None
    else if e.ordinal <= |s.journal| then
      if s.journal[e.ordinal - 1] == e then Some(s) else None
    else if e.ordinal != |s.journal| + 1 then None
    else Some(s.(journal := s.journal + [e]))
  }

  /** Writes a record file exclusively, or checks that the file holds the very same bytes. */
  function WriteRecord(x: Ctx, s: Store, ordinal: nat, r: Record): Option<Store> {
    if ordinal !in s.records then Some(s.(records := s.records[ordinal := Canonical(RecordDoc(r))]))
    else if x.sha(s.records[ordinal]) == x.Digest(RecordDoc(r)) then Some(s)
    else None
  }

  /** The two durable steps, the process dying after `writes` of them. */
  function Commit(x: Ctx, s: Store, c: Claim, writes: nat): (Store, Outcome)
    requires 1 <= c.ordinal
  {
    if writes == 0 then (s, Crashed)
    else
      var journalled := Journal(x, s, EventOf(x, c));
      if journalled.None? then (s, Refused)
      else if writes == 1 then (journalled.value, Crashed)
      else
        var written := WriteRecord(x, journalled.value, c.ordinal, RecordOf(x, c));
        if written.None? then (journalled.value, Refused) else (written.value, Accepted(RecordOf(x, c)))
  }

  /** What the next acceptance would claim at time `now`; none when it is refused before any
      write. */
  function NextClaim(x: Ctx, s: Store, now: Time): (c: Option<Claim>)
    ensures c.Some? ==> 1 <= c.value.ordinal <= x.Size()
  {
    var records := ReadAccepted(x, s);
    if records.None? || |records.value| == x.Size() then None
    else
      var rs := records.value;
      var ordinal := |rs| + 1;
      var input := ProducerInput(x, s.inbox, ordinal, now);
      if input.None? then None
      else
        var prior := if rs == [] then x.initial else rs[|rs| - 1].claim.fold;
        Some(ClaimOf(x, s.inbox, ordinal, prior, input.value.0, input.value.1, now))
  }

  function AcceptNext(x: Ctx, s: Store, now: Time, writes: nat): (Store, Outcome) {
    var c := NextClaim(x, s, now);
    if c.None? then (s, Refused) else Commit(x, s, c.value, writes)
  }

  /** Exclusive creation: the first writer wins. */
  function PutOnce(files: map<nat, Bytes>, i: nat, b: Bytes): map<nat, Bytes> {
    if i in files then files else files[i := b]
  }

  function Step(x: Ctx, s: Store, op: Op): (Store, Outcome) {
    match op
    case PutArtifact(i, b) => (s.(inbox := s.inbox.(artifacts := PutOnce(s.inbox.artifacts, i, b))), Noted)
    case PutReceipt(i, b) => (s.(inbox := s.inbox.(receipts := PutOnce(s.inbox.receipts, i, b))), Noted)
    case Accept(now, writes) => AcceptNext(x, s, now, writes)
    case LeaveExecuting => (s.(executing := false), Noted)
  }

  const EMPTY: Store := Store([], map[], Inbox(map[], map[]), true)

  function Run(x: Ctx, s: Store, ops: seq<Op>): Store
    decreases |ops|
  {
    if ops == [] then s else Run(x, Step(x, s, ops[0]).0, ops[1..])
  }
}
