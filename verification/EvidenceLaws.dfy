/** The attempt store over every sequence of appends and crashes: nothing readable ever changes,
    the reader returns exactly what was stored, and what each crash leaves behind. */
module EvidenceLaws {
  import opened Prelude
  import opened Redaction
  import opened AttemptNames
  import opened Evidence

  // ----- the invariant -----

  /** What anchor and file of attempt `i` say about whose attempt it is: the file as redaction
      left it. */
  ghost predicate RecordedAt(x: Ctx, s: Store, i: nat)
    requires 1 <= i <= |s.tracked| && i in s.anchors
  {
    && s.anchors[i].id == AttemptId(i) && s.anchors[i].scenario == x.scenario
    && Get(s.tracked[i - 1], "attempt_id") == Some(Str(AttemptId(i)))
    && Get(s.tracked[i - 1], "attempt_number") == Some(Num(i))
    && Get(s.tracked[i - 1], "scenario_id") == Some(Str(x.rules.Scrub(x.scenario)))
  }

  /** The anchor of attempt `i` and its fields; its index, if there is one. */
  ghost predicate AttemptAt(x: Ctx, s: Store, i: nat)
    requires 1 <= i <= |s.tracked|
  {
    && i in s.anchors && RecordedAt(x, s, i)
    && s.anchors[i].tracked == x.shaTracked(s.tracked[i - 1])
    && s.anchors[i].previousAnchor == AnchorSha(x, s, i - 1)
    && s.anchors[i].previousAttempt == TrackedSha(x, s, i - 1)
    && GetOrNull(s.tracked[i - 1], "previous_attempt_sha256") == PreviousField(x, TrackedSha(x, s, i - 1))
    && s.tracked[i - 1].Obj?
    && (i in s.indexes ==> s.indexes[i] == Index(x.shaTracked(s.tracked[i - 1]), x.shaAnchor(s.anchors[i])))
    && (i < |s.tracked| ==> i in s.indexes)
  }

  ghost predicate Inv(x: Ctx, s: Store) {
    && (forall i :: 1 <= i <= |s.tracked| ==> AttemptAt(x, s, i))
    && (forall i :: i in s.anchors ==> 1 <= i <= |s.tracked| + 1)
    && (forall i :: i in s.indexes ==> 1 <= i <= |s.tracked|)
    && (|s.tracked| + 1 in s.anchors ==> Indexed(s))
  }

  /** The newest tracked file has its index. */
  ghost predicate Indexed(s: Store) { |s.tracked| == 0 || |s.tracked| in s.indexes }

  /** An anchor without its tracked file. */
  ghost predicate Orphaned(s: Store) { |s.tracked| + 1 in s.anchors }

  ghost predicate Extends(s: Store, t: Store) {
    && |s.tracked| <= |t.tracked| && t.tracked[..|s.tracked|] == s.tracked
    && (forall i :: i in s.anchors ==> i in t.anchors && t.anchors[i] == s.anchors[i])
    && (forall i :: i in s.indexes ==> i in t.indexes && t.indexes[i] == s.indexes[i])
  }

  // ----- verification on a reachable store -----

  lemma ChainedIffIndexed(x: Ctx, s: Store, i: nat)
    requires Inv(x, s) && 1 <= i <= |s.tracked|
    ensures i in s.anchors
    ensures ChainedAt(x, s, i) <==> (i < |s.tracked| || Indexed(s))
    ensures NamedAt(x, s, i) <==> x.Spared()
  {
    assert AttemptAt(x, s, i);
  }

  /** Attempt `i` passes every check of the reader, and of the writer if the name was spared. */
  ghost predicate Passes(x: Ctx, s: Store, i: nat)
    requires 1 <= i <= |s.tracked|
  {
    InOrder(|s.tracked|, i) && ChainedAt(x, s, i) && (NamedAt(x, s, i) <==> x.Spared())
  }

  lemma TailSplits(s: seq<Json>, i: nat)
    requires 1 <= i <= |s|
    ensures s[i - 1..] == [s[i - 1]] + s[i..]
  {
  }

  lemma {:induction false} ReadsOn(x: Ctx, s: Store, i: nat)
    requires 1 <= i <= |s.tracked| + 1
    requires forall k :: i <= k <= |s.tracked| ==> Passes(x, s, k)
    ensures ReadFrom(x, s, i) == Some(s.tracked[i - 1..])
    ensures VerifiedFrom(x, s, i) <==> i > |s.tracked| || x.Spared()
    decreases |s.tracked| + 1 - i
  {
    if i <= |s.tracked| {
      assert Passes(x, s, i);
      ReadsOn(x, s, i + 1);
      TailSplits(s.tracked, i);
    } else {
      assert s.tracked[i - 1..] == [];
    }
  }

  /** Any attempt that fails the check stops reader and writer alike. */
  lemma {:induction false} StopsAt(x: Ctx, s: Store, i: nat, bad: nat)
    requires 1 <= i <= bad <= |s.tracked|
    requires !InOrder(|s.tracked|, bad) || !ChainedAt(x, s, bad)
    ensures ReadFrom(x, s, i).None? && !VerifiedFrom(x, s, i)
    decreases bad - i
  {
    if i < bad { StopsAt(x, s, i + 1, bad); }
  }

  lemma AllPass(x: Ctx, s: Store)
    requires Inv(x, s) && Indexed(s) && |s.tracked| <= 999
    ensures forall k :: 1 <= k <= |s.tracked| ==> Passes(x, s, k)
  {
    ListingIsNumericIff(|s.tracked|);
    forall k | 1 <= k <= |s.tracked| ensures Passes(x, s, k) {
      ChainedIffIndexed(x, s, k);
    }
  }

  /** Exactly the stores with every index in place and at most 999 attempts can be read, and
      then to the last attempt; verification before an append agrees, unless there are attempts and
      redaction changed the scenario's name in them. */
  lemma ReadableIff(x: Ctx, s: Store)
    requires Inv(x, s)
    ensures ReadAttempts(x, s) == if Indexed(s) && |s.tracked| <= 999 then Some(s.tracked) else None
    ensures VerifiedFrom(x, s, 1) <==> Indexed(s) && |s.tracked| <= 999 && (s.tracked == [] || x.Spared())
  {
    ListingIsNumericIff(|s.tracked|);
    if |s.tracked| > 999 {
      var k :| 0 <= k < |s.tracked| && Listing(|s.tracked|)[k] != Names(|s.tracked|)[k];
      StopsAt(x, s, 1, k + 1);
    } else if !Indexed(s) {
      ChainedIffIndexed(x, s, |s.tracked|);
      StopsAt(x, s, 1, |s.tracked|);
    } else {
      AllPass(x, s);
      ReadsOn(x, s, 1);
      assert s.tracked[0..] == s.tracked;
    }
  }

  // ----- one append -----

  /** The store takes this attempt. */
  ghost predicate Accepts(x: Ctx, s: Store, attempt: Json) {
    && Indexed(s) && |s.tracked| <= 999 && !Orphaned(s) && (s.tracked == [] || x.Spared())
    && NextAttempt(x, s, attempt) && Serializable(x, Redact(x.rules, attempt))
  }

  /** The store after the first `writes` of the three writes. */
  ghost function After(x: Ctx, s: Store, attempt: Json, writes: nat): Store {
    var n, redacted := |s.tracked|, Redact(x.rules, attempt);
    var anchor := NextAnchor(x, s, redacted);
    Store(if writes >= 2 then s.tracked + [redacted] else s.tracked,
          if writes >= 1 then s.anchors[n + 1 := anchor] else s.anchors,
          if writes >= 3 then s.indexes[n + 1 := Index(x.shaTracked(redacted), x.shaAnchor(anchor))] else s.indexes)
  }

  /** What an append does on a reachable store, in full: it is refused without a trace unless the
      store accepts the attempt, and otherwise performs its writes. The file never differs from
      its protected anchor. */
  lemma AppendExact(x: Ctx, s: Store, attempt: Json, writes: nat)
    requires x.Valid() && Inv(x, s)
    ensures Append(x, s, attempt, writes) ==
              if !Accepts(x, s, attempt) then (s, Refused)
              else (After(x, s, attempt, writes),
                    if writes <= 2 then Died(writes) else Stored(x.shaTracked(Redact(x.rules, attempt))))
  {
    if Accepts(x, s, attempt) {
      AppendAccepted(x, s, attempt, writes);
    } else {
      AppendRefused(x, s, attempt, writes);
    }
  }

  lemma AppendRefused(x: Ctx, s: Store, attempt: Json, writes: nat)
    requires Inv(x, s) && !Accepts(x, s, attempt)
    ensures Append(x, s, attempt, writes) == (s, Refused)
  {
    ReadableIff(x, s);
  }

  lemma AppendAccepted(x: Ctx, s: Store, attempt: Json, writes: nat)
    requires x.Valid() && Inv(x, s) && Accepts(x, s, attempt)
    ensures Append(x, s, attempt, writes)
         == (After(x, s, attempt, writes),
             if writes <= 2 then Died(writes) else Stored(x.shaTracked(Redact(x.rules, attempt))))
  {
    ReadableIff(x, s);
    if writes > 1 {
      SecondRedactionIsIdle(x.rules, attempt);
      AppendWrites(x, s, Redact(x.rules, attempt), writes);
    }
  }

  lemma AppendWrites(x: Ctx, s: Store, redacted: Json, writes: nat)
    requires Inv(x, s) && Serializable(x, redacted) && Redact(x.rules, redacted) == redacted
    requires |s.tracked| + 1 !in s.indexes && writes > 1
    ensures var n, anchor := |s.tracked|, NextAnchor(x, s, redacted);
            var s1 := s.(anchors := s.anchors[n + 1 := anchor]);
            var tracked := s.tracked + [redacted];
            WriteTracked(x, s1, redacted, anchor, writes) ==
              if writes == 2 then (Store(tracked, s1.anchors, s.indexes), Died(2))
              else (Store(tracked, s1.anchors, s.indexes[n + 1 := Index(x.shaTracked(redacted), x.shaAnchor(anchor))]),
                    Stored(x.shaTracked(redacted)))
  {
  }

  /** Redaction keeps the identity fields of an attempt, all but perhaps the scenario's name. */
  lemma IdentitySurvives(x: Ctx, s: Store, attempt: Json)
    requires x.Valid() && NextAttempt(x, s, attempt)
    ensures var r := Redact(x.rules, attempt);
            && r.Obj? && Get(r, "scenario_id") == Some(Str(x.rules.Scrub(x.scenario)))
            && Get(r, "attempt_number") == Some(Num(|s.tracked| + 1))
            && Get(r, "attempt_id") == Some(Str(AttemptId(|s.tracked| + 1)))
            && GetOrNull(r, "previous_attempt_sha256") == PreviousField(x, TrackedSha(x, s, |s.tracked|))
  {
    GetAfterRedact(x.rules, attempt, "scenario_id");
    GetAfterRedact(x.rules, attempt, "attempt_number");
    GetAfterRedact(x.rules, attempt, "attempt_id");
    GetAfterRedact(x.rules, attempt, "previous_attempt_sha256");
  }

  lemma AnchorWritten(x: Ctx, s: Store, attempt: Json)
    requires x.Valid() && Inv(x, s) && Accepts(x, s, attempt)
    ensures Inv(x, After(x, s, attempt, 1)) && Extends(s, After(x, s, attempt, 1))
  {
    var t := After(x, s, attempt, 1);
    forall i | 1 <= i <= |t.tracked| ensures AttemptAt(x, t, i) { assert AttemptAt(x, s, i); }
  }

  lemma NewAttempt(x: Ctx, s: Store, attempt: Json)
    requires x.Valid() && Inv(x, s) && Accepts(x, s, attempt)
    ensures AttemptAt(x, After(x, s, attempt, 2), |s.tracked| + 1)
  {
    var n, t := |s.tracked|, After(x, s, attempt, 2);
    IdentitySurvives(x, s, attempt);
    if n > 0 { assert AttemptAt(x, s, n); }
    assert AnchorSha(x, t, n) == AnchorSha(x, s, n) && TrackedSha(x, t, n) == TrackedSha(x, s, n);
  }

  lemma TrackedWritten(x: Ctx, s: Store, attempt: Json)
    requires x.Valid() && Inv(x, s) && Accepts(x, s, attempt)
    ensures Inv(x, After(x, s, attempt, 2)) && Extends(s, After(x, s, attempt, 2))
  {
    NewAttempt(x, s, attempt);
    var redacted := Redact(x.rules, attempt);
    GrownInv(x, s, After(x, s, attempt, 2), redacted, NextAnchor(x, s, redacted));
  }

  lemma GrownInv(x: Ctx, s: Store, t: Store, redacted: Json, anchor: Anchor)
    requires Inv(x, s) && Indexed(s) && !Orphaned(s)
    requires t == Store(s.tracked + [redacted], s.anchors[|s.tracked| + 1 := anchor], s.indexes)
    requires AttemptAt(x, t, |s.tracked| + 1)
    ensures Inv(x, t) && Extends(s, t)
  {
    forall i | 1 <= i <= |s.tracked| ensures AttemptAt(x, t, i) {
      assert AttemptAt(x, s, i);
      OldAttempt(x, s, t, i);
    }
    assert t.tracked[..|s.tracked|] == s.tracked;
  }

  lemma OldAttempt(x: Ctx, s: Store, t: Store, i: nat)
    requires 1 <= i <= |s.tracked| <= |t.tracked| && AttemptAt(x, s, i)
    requires forall k :: 0 <= k < |s.tracked| ==> t.tracked[k] == s.tracked[k]
    requires forall k :: 1 <= k <= |s.tracked| ==>
               (k in t.anchors <==> k in s.anchors) && (k in s.anchors ==> t.anchors[k] == s.anchors[k])
    requires i in t.indexes ==> i in s.indexes && t.indexes[i] == s.indexes[i]
    requires i < |t.tracked| ==> i in t.indexes
    ensures AttemptAt(x, t, i)
  {
    assert AnchorSha(x, t, i - 1) == AnchorSha(x, s, i - 1);
  }

  lemma IndexWritten(x: Ctx, s: Store, attempt: Json)
    requires x.Valid() && Inv(x, s) && Accepts(x, s, attempt) && Inv(x, After(x, s, attempt, 2))
    ensures Inv(x, After(x, s, attempt, 3))
  {
    var t2, t := After(x, s, attempt, 2), After(x, s, attempt, 3);
    forall i | 1 <= i <= |t.tracked| ensures AttemptAt(x, t, i) { assert AttemptAt(x, t2, i); }
  }

  lemma AfterKeepsInv(x: Ctx, s: Store, attempt: Json, writes: nat)
    requires x.Valid() && Inv(x, s) && Accepts(x, s, attempt) && writes <= 3
    ensures Inv(x, After(x, s, attempt, writes)) && Extends(s, After(x, s, attempt, writes))
  {
    if writes == 0 {
      assert After(x, s, attempt, 0) == s;
    } else if writes == 1 {
      AnchorWritten(x, s, attempt);
    } else {
      TrackedWritten(x, s, attempt);
      if writes == 3 { IndexWritten(x, s, attempt); }
    }
  }

  lemma AppendKeepsInv(x: Ctx, s: Store, attempt: Json, writes: nat)
    requires x.Valid() && Inv(x, s)
    ensures var t := Append(x, s, attempt, writes).0; Inv(x, t) && Extends(s, t)
  {
    AppendExact(x, s, attempt, writes);
    if Accepts(x, s, attempt) {
      var w := if writes > 3 then 3 else writes;
      assert After(x, s, attempt, writes) == After(x, s, attempt, w);
      AfterKeepsInv(x, s, attempt, w);
    }
  }

  /** An attempt that shows a key of two sensitive classes, at any depth, is refused before the
      first write, whatever the store. */
  lemma DoubleKeyIsNeverAppended(x: Ctx, s: Store, attempt: Json, key: string, writes: nat)
    requires x.Valid() && Visits(x.rules, attempt, key) && !OneClass(x.rules, key)
    ensures Append(x, s, attempt, writes) == (s, Refused)
  {
    TwoClassesAreRefused(x.rules, key, attempt);
  }

  /** Under the program's own classes the key private_manager_token is such a key. */
  lemma ManagerTokenIsNeverAppended(x: Ctx, base: Rules, normal: string -> string, s: Store, attempt: Json, writes: nat)
    requires x.Valid() && base.Valid() && x.rules == ProgramRules(base, normal)
    requires normal("private_manager_token") == "private_manager_token"
    requires Visits(x.rules, attempt, "private_manager_token")
    ensures Append(x, s, attempt, writes) == (s, Refused)
  {
    DoublyClassifiedKeyIsRefused(base, normal, attempt);
  }

  // ----- whole runs -----

  lemma {:induction false} RunKeepsInv(x: Ctx, s: Store, ops: seq<Op>)
    requires x.Valid() && Inv(x, s)
    ensures Inv(x, Run(x, s, ops)) && Extends(s, Run(x, s, ops))
    decreases |ops|
  {
    if ops != [] {
      var t := Append(x, s, ops[0].attempt, ops[0].writes).0;
      AppendKeepsInv(x, s, ops[0].attempt, ops[0].writes);
      RunKeepsInv(x, t, ops[1..]);
      ExtendsTransitive(s, t, Run(x, s, ops));
    }
  }

  lemma ExtendsTransitive(s: Store, t: Store, u: Store)
    requires Extends(s, t) && Extends(t, u)
    ensures Extends(s, u)
  {
    assert u.tracked[..|s.tracked|] == u.tracked[..|t.tracked|][..|s.tracked|];
  }

  /** The tracked files whose index was written. */
  ghost function Settled(s: Store): seq<Json> {
    if Indexed(s) then s.tracked else s.tracked[..|s.tracked| - 1]
  }

  function RedactAll(x: Ctx, attempts: seq<Json>): seq<Json> { MapSeq((a: Json) => Redact(x.rules, a), attempts) }

  lemma {:induction false} SettledIsStored(x: Ctx, s: Store, ops: seq<Op>)
    requires x.Valid() && Inv(x, s)
    ensures Settled(Run(x, s, ops)) == Settled(s) + RedactAll(x, StoredAttempts(x, s, ops))
    decreases |ops|
  {
    if ops != [] {
      var a, w := ops[0].attempt, ops[0].writes;
      var (t, out) := Append(x, s, a, w);
      AppendKeepsInv(x, s, a, w);
      SettledStep(x, s, a, w);
      SettledIsStored(x, t, ops[1..]);
      Joined(x, Settled(s), if out.Stored? then [a] else [], StoredAttempts(x, t, ops[1..]));
    }
  }

  lemma Joined(x: Ctx, settled: seq<Json>, stored: seq<Json>, rest: seq<Json>)
    ensures settled + RedactAll(x, stored) + RedactAll(x, rest) == settled + RedactAll(x, stored + rest)
  {
    assert RedactAll(x, stored + rest) == RedactAll(x, stored) + RedactAll(x, rest);
  }

  lemma SettledAfter(x: Ctx, s: Store, a: Json, w: nat)
    requires Inv(x, s) && Accepts(x, s, a)
    ensures Settled(After(x, s, a, w)) == Settled(s) + if w > 2 then [Redact(x.rules, a)] else []
  {
    if w == 2 {
      var t := After(x, s, a, 2);
      assert t.tracked[..|s.tracked|] == s.tracked;
    }
  }

  lemma SettledStep(x: Ctx, s: Store, a: Json, w: nat)
    requires x.Valid() && Inv(x, s)
    ensures var (t, out) := Append(x, s, a, w);
            Settled(t) == Settled(s) + RedactAll(x, if out.Stored? then [a] else [])
  {
    AppendExact(x, s, a, w);
    assert RedactAll(x, [a]) == [Redact(x.rules, a)] && RedactAll(x, []) == [];
    if Accepts(x, s, a) { SettledAfter(x, s, a, w); }
  }

  /** After any sequence of appends and crashes the reader, when it accepts the store, returns
      exactly the stored attempts, redacted, in order; and it accepts exactly while every tracked
      file has its index and there are at most 999. */
  lemma ReaderReturnsWhatWasStored(x: Ctx, ops: seq<Op>)
    requires x.Valid()
    ensures var s := Run(x, EMPTY, ops);
            && (ReadAttempts(x, s).Some? <==> Indexed(s) && |s.tracked| <= 999)
            && (ReadAttempts(x, s).Some? ==>
                  ReadAttempts(x, s).value == RedactAll(x, StoredAttempts(x, EMPTY, ops)))
  {
    RunKeepsInv(x, EMPTY, ops);
    SettledIsStored(x, EMPTY, ops);
    ReadableIff(x, Run(x, EMPTY, ops));
    assert Settled(EMPTY) == [];
  }

  /** What could be read once stays readable word for word as the beginning of every later reading. */
  lemma ReadableNeverChanges(x: Ctx, ops: seq<Op>, more: seq<Op>)
    requires x.Valid()
    requires ReadAttempts(x, Run(x, EMPTY, ops)).Some? && ReadAttempts(x, Run(x, Run(x, EMPTY, ops), more)).Some?
    ensures ReadAttempts(x, Run(x, EMPTY, ops)).value <= ReadAttempts(x, Run(x, Run(x, EMPTY, ops), more)).value
  {
    var s := Run(x, EMPTY, ops);
    RunKeepsInv(x, EMPTY, ops);
    RunKeepsInv(x, s, more);
    ReadableIff(x, s);
    ReadableIff(x, Run(x, s, more));
  }

  /** No number is skipped or reused: the file of attempt `i` says it is attempt `i`. */
  lemma NumbersAreConsecutive(x: Ctx, ops: seq<Op>)
    requires x.Valid()
    ensures var s := Run(x, EMPTY, ops);
            forall i :: 1 <= i <= |s.tracked| ==> Get(s.tracked[i - 1], "attempt_number") == Some(Num(i))
  {
    var s := Run(x, EMPTY, ops);
    RunKeepsInv(x, EMPTY, ops);
    forall i | 1 <= i <= |s.tracked| ensures Get(s.tracked[i - 1], "attempt_number") == Some(Num(i)) {
      assert AttemptAt(x, s, i);
    }
  }

  // ----- what crashes leave behind -----

  /** A crash after the first write leaves an anchor the reader does not notice. */
  lemma OrphanIsInvisible(x: Ctx, s: Store, attempt: Json)
    requires x.Valid() && Inv(x, s)
    ensures ReadAttempts(x, Append(x, s, attempt, 1).0) == ReadAttempts(x, s)
  {
    AppendKeepsInv(x, s, attempt, 1);
    AppendExact(x, s, attempt, 1);
    ReadableIff(x, s);
    ReadableIff(x, Append(x, s, attempt, 1).0);
  }

  /** The store takes no attempt ever again: an orphan anchor, a missing index, a thousandth
      attempt, or a first attempt in which redaction changed the scenario's name is in the way. */
  ghost predicate Blocked(x: Ctx, s: Store) {
    Orphaned(s) || !Indexed(s) || |s.tracked| > 999 || (s.tracked != [] && !x.Spared())
  }

  lemma {:induction false} BlockedStays(x: Ctx, s: Store, ops: seq<Op>)
    requires x.Valid() && Inv(x, s) && Blocked(x, s)
    ensures Run(x, s, ops) == s
    decreases |ops|
  {
    if ops != [] {
      AppendExact(x, s, ops[0].attempt, ops[0].writes);
      BlockedStays(x, s, ops[1..]);
    }
  }

  /** Each of the two crashes between writes blocks the scenario; after the second the reader
      refuses it too. */
  lemma CrashBetweenWritesBlocks(x: Ctx, s: Store, attempt: Json, writes: nat)
    requires x.Valid() && Inv(x, s) && 1 <= writes <= 2 && Append(x, s, attempt, writes).1 == Died(writes)
    ensures var t := Append(x, s, attempt, writes).0;
            Inv(x, t) && Blocked(x, t) && (writes == 2 ==> ReadAttempts(x, t).None?)
  {
    AppendKeepsInv(x, s, attempt, writes);
    AppendExact(x, s, attempt, writes);
    ReadableIff(x, Append(x, s, attempt, writes).0);
  }

  /** A scenario whose name redaction changes takes one attempt and no other, ever. */
  lemma {:induction false} ChangedNameStopsAtOne(x: Ctx, s: Store, ops: seq<Op>)
    requires x.Valid() && !x.Spared() && Inv(x, s) && |s.tracked| <= 1
    ensures |Run(x, s, ops).tracked| <= 1
    decreases |ops|
  {
    if Blocked(x, s) {
      BlockedStays(x, s, ops);
    } else if ops != [] {
      AppendExact(x, s, ops[0].attempt, ops[0].writes);
      AppendKeepsInv(x, s, ops[0].attempt, ops[0].writes);
      ChangedNameStopsAtOne(x, Append(x, s, ops[0].attempt, ops[0].writes).0, ops[1..]);
    }
  }

  /** The thousandth attempt is stored without complaint, and makes the whole scenario unreadable. */
  lemma ThousandthAttempt(x: Ctx, s: Store, attempt: Json)
    requires x.Valid() && Inv(x, s) && |s.tracked| == 999 && Accepts(x, s, attempt)
    ensures ReadAttempts(x, s).Some?
    ensures var (t, out) := Append(x, s, attempt, 3);
            out.Stored? && ReadAttempts(x, t).None? && Blocked(x, t)
  {
    AppendKeepsInv(x, s, attempt, 3);
    AppendExact(x, s, attempt, 3);
    ReadableIff(x, s);
    ReadableIff(x, Append(x, s, attempt, 3).0);
  }

  // ----- tampering -----

  lemma {:induction false} ReadFromChained(x: Ctx, s: Store, i: nat, k: nat)
    requires 1 <= i <= k <= |s.tracked| && ReadFrom(x, s, i).Some?
    ensures ChainedAt(x, s, k)
    decreases k - i
  {
    if i < k { ReadFromChained(x, s, i + 1, k); }
  }

  lemma {:induction false} ReadFromIsTracked(x: Ctx, s: Store, i: nat)
    requires 1 <= i <= |s.tracked| + 1 && ReadFrom(x, s, i).Some?
    ensures ReadFrom(x, s, i).value == s.tracked[i - 1..]
    decreases |s.tracked| + 1 - i
  {
    if i <= |s.tracked| {
      ReadFromIsTracked(x, s, i + 1);
      TailSplits(s.tracked, i);
    } else {
      assert s.tracked[i - 1..] == [];
    }
  }

  /** Every attempt up to `i` is chained to the one before. */
  ghost predicate ChainedUpTo(x: Ctx, s: Store, i: nat) {
    i <= |s.tracked| && forall k :: 1 <= k <= i ==> ChainedAt(x, s, k)
  }

  lemma ReadIsChained(x: Ctx, s: Store)
    requires ReadAttempts(x, s).Some?
    ensures ChainedUpTo(x, s, |s.tracked|) && ReadAttempts(x, s).value == s.tracked
  {
    forall k | 1 <= k <= |s.tracked| ensures ChainedAt(x, s, k) { ReadFromChained(x, s, 1, k); }
    ReadFromIsTracked(x, s, 1);
    assert s.tracked[0..] == s.tracked;
  }

  /** One link of the two chains, read backwards. */
  lemma AnchorLink(x: Ctx, s: Store, t: Store, i: nat, j: nat)
    requires x.Injective() && 1 <= i <= |s.tracked| && 1 <= j <= |t.tracked|
    requires ChainedAt(x, s, i) && ChainedAt(x, t, j) && s.anchors[i] == t.anchors[j]
    requires i > 1 ==> i - 1 in s.anchors
    requires j > 1 ==> j - 1 in t.anchors
    ensures s.tracked[i - 1] == t.tracked[j - 1] && (i == 1 <==> j == 1)
    ensures i > 1 && j > 1 ==> s.anchors[i - 1] == t.anchors[j - 1]
  {
    var files: Digest -> Json :| x.TracesFiles(files);
    var anchors: Digest -> Anchor :| x.TracesAnchors(anchors);
    assert files(x.shaTracked(s.tracked[i - 1])) == files(x.shaTracked(t.tracked[j - 1]));
    if i > 1 && j > 1 {
      assert anchors(x.shaAnchor(s.anchors[i - 1])) == anchors(x.shaAnchor(t.anchors[j - 1]));
    }
  }

  /** One protected anchor fixes its number and every attempt up to it: by descent along the
      chains. */
  lemma {:induction false} AnchorFixesHistory(x: Ctx, s: Store, t: Store, i: nat, j: nat)
    requires x.Injective() && ChainedUpTo(x, s, i) && ChainedUpTo(x, t, j)
    requires i in s.anchors && j in t.anchors && s.anchors[i] == t.anchors[j] && i > 0 && j > 0
    ensures i == j && s.tracked[..i] == t.tracked[..j]
  {
    assert ChainedAt(x, s, i) && ChainedAt(x, t, j);
    assert i > 1 ==> ChainedAt(x, s, i - 1);
    assert j > 1 ==> ChainedAt(x, t, j - 1);
    AnchorLink(x, s, t, i, j);
    if i > 1 { AnchorFixesHistory(x, s, t, i - 1, j - 1); }
    LastSplits(s.tracked, i);
    LastSplits(t.tracked, j);
  }

  lemma LastSplits(s: seq<Json>, i: nat)
    requires 1 <= i <= |s|
    ensures s[..i] == s[..i - 1] + [s[i - 1]]
  {
  }

  /** Two stores the reader accepts, whoever wrote their files, read the same, word for word and to
      the same length, as soon as their newest anchors are equal. */
  lemma NewestAnchorFixesReading(x: Ctx, s: Store, t: Store)
    requires x.Injective() && ReadAttempts(x, s).Some? && ReadAttempts(x, t).Some?
    requires s.tracked != [] && t.tracked != []
    ensures |s.tracked| in s.anchors && |t.tracked| in t.anchors
    ensures s.anchors[|s.tracked|] == t.anchors[|t.tracked|] ==> ReadAttempts(x, s) == ReadAttempts(x, t)
  {
    var i, j := |s.tracked|, |t.tracked|;
    ReadIsChained(x, s);
    ReadIsChained(x, t);
    assert ChainedAt(x, s, i) && ChainedAt(x, t, j);
    if s.anchors[i] == t.anchors[j] {
      AnchorFixesHistory(x, s, t, i, j);
      assert s.tracked[..i] == s.tracked && t.tracked[..j] == t.tracked;
    }
  }

  /** In particular stores over the same anchors agree on every attempt both have. */
  lemma SameAnchorsSamePayloads(x: Ctx, s: Store, t: Store)
    requires x.Injective() && s.anchors == t.anchors
    requires ReadAttempts(x, s).Some? && ReadAttempts(x, t).Some?
    ensures var ps, qs := ReadAttempts(x, s).value, ReadAttempts(x, t).value;
            forall i :: 0 <= i < |ps| && i < |qs| ==> ps[i] == qs[i]
  {
    ReadIsChained(x, s);
    ReadIsChained(x, t);
    var n := if |s.tracked| <= |t.tracked| then |s.tracked| else |t.tracked|;
    if n > 0 {
      assert ChainedAt(x, s, n) && ChainedAt(x, t, n);
      AnchorFixesHistory(x, s, t, n, n);
      assert forall i :: 0 <= i < n ==> s.tracked[i] == s.tracked[..n][i] == t.tracked[..n][i] == t.tracked[i];
    }
  }
}
