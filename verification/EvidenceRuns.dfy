/** Runs that reach the bounds of the attempt store: any number of clean attempts up to a thousand
    is stored, and the last of them makes the scenario unreadable. */
module EvidenceRuns {
  import opened Prelude
  import opened Redaction
  import opened AttemptNames
  import opened Evidence
  import opened EvidenceLaws

  /** An attempt with the right identity and some body. */
  function CleanAttempt(x: Ctx, n: nat, previous: Option<Digest>, body: Json): Json {
    Obj([Field("scenario_id", Str(x.scenario)), Field("attempt_number", Num(n)), Field("attempt_id", Str(AttemptId(n))),
         Field("previous_attempt_sha256", PreviousField(x, previous)), Field("body", body)])
  }

  /** Bodies and a scenario's name that the redactor can clean, in attempts whose serialized text is
      clean too. */
  ghost predicate CleanBodies(x: Ctx, bodies: nat -> Json) {
    && x.rules.Plain("body") && Redactable(x.rules, Str(x.scenario))
    && (forall n :: Redactable(x.rules, bodies(n)))
    && (forall n, previous :: x.textClean(Redact(x.rules, CleanAttempt(x, n, previous, bodies(n)))))
  }

  function NextClean(x: Ctx, s: Store, bodies: nat -> Json): Json {
    var n := |s.tracked|;
    CleanAttempt(x, n + 1, TrackedSha(x, s, n), bodies(n + 1))
  }

  /** The store after `n` clean attempts. */
  function CleanStore(x: Ctx, bodies: nat -> Json, n: nat): Store {
    if n == 0 then EMPTY
    else
      var s := CleanStore(x, bodies, n - 1);
      Append(x, s, NextClean(x, s, bodies), 3).0
  }

  function CleanStores(x: Ctx, bodies: nat -> Json): nat -> Store { (i: nat) => CleanStore(x, bodies, i) }

  function CleanAttempts(x: Ctx, bodies: nat -> Json): nat -> Json {
    (i: nat) => NextClean(x, CleanStore(x, bodies, i), bodies)
  }

  /** Appending the first `n` attempts without a crash. */
  function Appends(attempts: nat -> Json, n: nat): seq<Op> {
    if n == 0 then [] else Appends(attempts, n - 1) + [Op(attempts(n - 1), 3)]
  }

  lemma CleanIsNext(x: Ctx, s: Store, bodies: nat -> Json)
    ensures NextAttempt(x, s, NextClean(x, s, bodies))
  {
    var f := NextClean(x, s, bodies).fields;
    KeysDiffer();
    LookupAt(f, 0);
    LookupAt(f, 1);
    LookupAt(f, 2);
    LookupAt(f, 3);
  }

  lemma KeysDiffer()
    ensures "scenario_id" != "attempt_number" && "scenario_id" != "attempt_id"
    ensures "scenario_id" != "previous_attempt_sha256"
    ensures "attempt_number" != "attempt_id" && "attempt_number" != "previous_attempt_sha256"
    ensures "attempt_id" != "previous_attempt_sha256"
  {
    assert |"scenario_id"| == 11 && |"attempt_number"| == 14;
    assert |"attempt_id"| == 10 && |"previous_attempt_sha256"| == 23;
  }

  lemma {:induction false} LookupAt(fields: seq<Field>, i: nat)
    requires i < |fields| && forall j :: 0 <= j < i ==> fields[j].key != fields[i].key
    ensures Lookup(fields, fields[i].key) == Some(fields[i].value)
  {
    if i > 0 { LookupAt(fields[1..], i - 1); }
  }

  lemma CleanIsRedactable(x: Ctx, s: Store, bodies: nat -> Json)
    requires x.Valid() && CleanBodies(x, bodies)
    ensures Serializable(x, Redact(x.rules, NextClean(x, s, bodies)))
  {
    var n := |s.tracked|;
    var previous := TrackedSha(x, s, n);
    assert x.textClean(Redact(x.rules, CleanAttempt(x, n + 1, previous, bodies(n + 1))));
    Harmless(x, AttemptId(n + 1));
    if previous.Some? { Harmless(x, x.hex(previous.value)); }
    assert Redactable(x.rules, PreviousField(x, previous));
    var a := NextClean(x, s, bodies);
    forall i | 0 <= i < |a.fields|
      ensures OneClass(x.rules, a.fields[i].key)
      ensures x.rules.Plain(a.fields[i].key) ==> Redactable(x.rules, a.fields[i].value)
    {
    }
    RedactionPassesIff(x.rules, a);
  }

  lemma Harmless(x: Ctx, text: string)
    requires x.Valid() && !x.rules.Leaks(text)
    ensures Redactable(x.rules, Str(text))
  {
  }

  /** The store waits for its next attempt. */
  ghost predicate Ready(x: Ctx, s: Store) { Inv(x, s) && Indexed(s) && !Orphaned(s) }

  lemma CleanStep(x: Ctx, s: Store, bodies: nat -> Json)
    requires x.Valid() && CleanBodies(x, bodies) && Ready(x, s) && |s.tracked| <= 999
    requires s.tracked == [] || x.Spared()
    ensures var (t, out) := Append(x, s, NextClean(x, s, bodies), 3);
            out.Stored? && Ready(x, t) && |t.tracked| == |s.tracked| + 1
  {
    var a := NextClean(x, s, bodies);
    CleanIsNext(x, s, bodies);
    CleanIsRedactable(x, s, bodies);
    AppendExact(x, s, a, 3);
    AppendKeepsInv(x, s, a, 3);
  }

  /** How many clean attempts fit: a thousand, or a single one if redaction changes the name. */
  function Room(x: Ctx): nat { if x.Spared() then 1000 else 1 }

  lemma {:induction false} CleanStoreIsReady(x: Ctx, bodies: nat -> Json, n: nat)
    requires x.Valid() && CleanBodies(x, bodies) && n <= Room(x)
    ensures Ready(x, CleanStore(x, bodies, n)) && |CleanStore(x, bodies, n).tracked| == n
  {
    if n > 0 {
      CleanStoreIsReady(x, bodies, n - 1);
      CleanStepTo(x, CleanStore(x, bodies, n - 1), bodies, CleanStore(x, bodies, n));
    }
  }

  lemma CleanStepTo(x: Ctx, s: Store, bodies: nat -> Json, t: Store)
    requires x.Valid() && CleanBodies(x, bodies) && Ready(x, s) && |s.tracked| <= 999
    requires s.tracked == [] || x.Spared()
    requires t == Append(x, s, NextClean(x, s, bodies), 3).0
    ensures Ready(x, t) && |t.tracked| == |s.tracked| + 1
  {
    CleanStep(x, s, bodies);
  }

  /** The operations lead from `s` to `t` and store `n` attempts. */
  ghost predicate Stores(x: Ctx, s: Store, ops: seq<Op>, t: Store, n: nat) {
    Run(x, s, ops) == t && |StoredAttempts(x, s, ops)| == n
  }

  /** One more stored attempt at the end. */
  lemma {:induction false} StoredAtEnd(x: Ctx, s: Store, ops: seq<Op>, a: Json, t: Store, n: nat)
    requires Stores(x, s, ops, t, n) && Append(x, t, a, 3).1.Stored?
    ensures Stores(x, s, ops + [Op(a, 3)], Append(x, t, a, 3).0, n + 1)
    decreases |ops|
  {
    var all := ops + [Op(a, 3)];
    if ops == [] {
      assert all[0] == Op(a, 3) && all[1..] == [];
    } else {
      var (s1, out) := Append(x, s, ops[0].attempt, ops[0].writes);
      var rest := ops[1..];
      assert all[0] == ops[0] && all[1..] == rest + [Op(a, 3)];
      StoredAtEnd(x, s1, rest, a, t, if out.Stored? then n - 1 else n);
    }
  }

  /** Attempt `i` is stored and leads from store `i` to the next. */
  ghost predicate Linked(x: Ctx, stores: nat -> Store, attempts: nat -> Json, i: nat) {
    var (t, out) := Append(x, stores(i), attempts(i), 3);
    t == stores(i + 1) && out.Stored?
  }

  /** The first `n` attempts are stored and end at store `n`. */
  ghost predicate StoredUpTo(x: Ctx, stores: nat -> Store, attempts: nat -> Json, n: nat) {
    Stores(x, EMPTY, Appends(attempts, n), stores(n), n)
  }

  lemma NothingStored(x: Ctx, stores: nat -> Store, attempts: nat -> Json)
    requires stores(0) == EMPTY
    ensures StoredUpTo(x, stores, attempts, 0)
  {
  }

  lemma StoredNext(x: Ctx, stores: nat -> Store, attempts: nat -> Json, n: nat)
    requires StoredUpTo(x, stores, attempts, n) && Linked(x, stores, attempts, n)
    ensures StoredUpTo(x, stores, attempts, n + 1)
  {
    StoredAtEnd(x, EMPTY, Appends(attempts, n), attempts(n), stores(n), n);
  }

  lemma CleanIsLinked(x: Ctx, bodies: nat -> Json, i: nat)
    requires x.Valid() && CleanBodies(x, bodies) && i < Room(x)
    ensures Linked(x, CleanStores(x, bodies), CleanAttempts(x, bodies), i)
  {
    CleanStoreIsReady(x, bodies, i);
    CleanStep(x, CleanStore(x, bodies, i), bodies);
  }

  lemma CleanStored(x: Ctx, bodies: nat -> Json, i: nat)
    requires x.Valid() && CleanBodies(x, bodies) && i < Room(x)
    requires StoredUpTo(x, CleanStores(x, bodies), CleanAttempts(x, bodies), i)
    ensures StoredUpTo(x, CleanStores(x, bodies), CleanAttempts(x, bodies), i + 1)
  {
    CleanIsLinked(x, bodies, i);
    StoredNext(x, CleanStores(x, bodies), CleanAttempts(x, bodies), i);
  }

  lemma {:induction false} CleanRunStores(x: Ctx, bodies: nat -> Json, n: nat)
    requires x.Valid() && CleanBodies(x, bodies) && n <= Room(x)
    ensures StoredUpTo(x, CleanStores(x, bodies), CleanAttempts(x, bodies), n)
  {
    if n == 0 {
      NothingStored(x, CleanStores(x, bodies), CleanAttempts(x, bodies));
    } else {
      CleanRunStores(x, bodies, n - 1);
      CleanStored(x, bodies, n - 1);
    }
  }

  /** From the empty store any number of clean attempts up to a thousand is stored in full. They can
      be read back exactly if there are at most 999 of them; after a thousand nothing is stored or
      read ever again. */
  lemma CleanRunsReadable(x: Ctx, bodies: nat -> Json, n: nat, more: seq<Op>)
    requires x.Valid() && CleanBodies(x, bodies) && x.Spared() && n <= 1000
    ensures var ops := Appends(CleanAttempts(x, bodies), n);
            var s := Run(x, EMPTY, ops);
            && |StoredAttempts(x, EMPTY, ops)| == n && |s.tracked| == n
            && (ReadAttempts(x, s).Some? <==> n <= 999)
            && (n == 1000 ==> Run(x, s, more) == s)
  {
    var s := CleanStore(x, bodies, n);
    CleanRunStores(x, bodies, n);
    CleanStoreIsReady(x, bodies, n);
    ReadableIff(x, s);
    if n == 1000 { BlockedStays(x, s, more); }
  }

  /** The same attempts in a scenario of any name: of up to a thousand all are stored exactly if
      there is no second one or redaction leaves the scenario's name alone. */
  lemma AllStoredIff(x: Ctx, bodies: nat -> Json, n: nat)
    requires x.Valid() && CleanBodies(x, bodies) && n <= 1000
    ensures |StoredAttempts(x, EMPTY, Appends(CleanAttempts(x, bodies), n))| == n <==> n <= 1 || x.Spared()
  {
    if n <= Room(x) {
      CleanRunStores(x, bodies, n);
    } else {
      StoredIsTracked(x, Appends(CleanAttempts(x, bodies), n));
      ChangedNameStopsAtOne(x, EMPTY, Appends(CleanAttempts(x, bodies), n));
    }
  }

  lemma StoredIsTracked(x: Ctx, ops: seq<Op>)
    requires x.Valid()
    ensures |StoredAttempts(x, EMPTY, ops)| <= |Run(x, EMPTY, ops).tracked|
  {
    RunKeepsInv(x, EMPTY, ops);
    SettledIsStored(x, EMPTY, ops);
    assert Settled(EMPTY) == [];
  }

  /** A scenario whose name is a phone number, where clean attempts exist and the second one is
      refused. */
  lemma PhoneScenario() returns (x: Ctx, bodies: nat -> Json)
    ensures x.Valid() && CleanBodies(x, bodies) && !x.Spared()
  {
    var no := (s: string) => false;
    var same := (s: string) => s;
    var phone := (s: string) => s == "1234567890";
    var mask := (s: string) => if s == "1234567890" then "[REDACTED_PHONE]" else s;
    assert |REDACTED_SECRET| == 17 && |REDACTED_MANAGER| == 23 && |REDACTED_LOG| == 27 && |"[REDACTED_PHONE]"| == 16;
    x := Ctx(Rules(no, no, no, no, phone, same, mask), "1234567890",
             (d: Digest) => "d", (v: Json) => 0, (a: Anchor) => 0, (v: Json) => true);
    forall n: nat ensures !x.rules.Leaks(AttemptId(n)) { assert AttemptId(n)[0] == 'a'; }
    bodies := (n: nat) => Null;
  }

  /** A scenario without sensitive keys or patterns, where all of this applies. */
  lemma PlainScenario() returns (x: Ctx, bodies: nat -> Json)
    ensures x.Valid() && CleanBodies(x, bodies) && x.Spared()
  {
    var no := (s: string) => false;
    var same := (s: string) => s;
    x := Ctx(Rules(no, no, no, no, no, same, same), "abc",
             (d: Digest) => "d", (v: Json) => 0, (a: Anchor) => 0, (v: Json) => true);
    bodies := (n: nat) => Null;
  }
}
