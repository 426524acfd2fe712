/** Applying a manifest is atomic, exact, idempotent, and never touches a conversation. */
module ReconciliationLaws {
  import opened Prelude
  import opened Sorting
  import opened Reconciliation

  /** Every action can be applied, or has been. */
  ghost predicate Applicable(db: Db, actions: seq<Action>, now: Time, staleAfterDays: int) {
    forall i :: 0 <= i < |actions| ==> Judge(db, actions[i], now, staleAfterDays) != Mismatch
  }

  /** The database with exactly the escalations in `ids` resolved. */
  ghost function WithResolved(db: Db, ids: set<Id>): Db {
    db.(escalations := map id | id in db.escalations ::
          if id in ids then db.escalations[id].(status := Resolved) else db.escalations[id])
  }

  function Ids(s: seq<Id>): set<Id> { set id | id in s }

  ghost function Verdicts(db: Db, actions: seq<Action>, now: Time, staleAfterDays: int, v: RowVerdict): seq<Id> {
    if actions == [] then []
    else (if Judge(db, actions[0], now, staleAfterDays) == v then [actions[0].id] else [])
         + Verdicts(db, actions[1..], now, staleAfterDays, v)
  }

  /** Resolving one escalation does not change the verdict on any other. */
  lemma {:induction false} VerdictsFrame(db: Db, id: Id, actions: seq<Action>, now: Time, stale: int, v: RowVerdict)
    requires id in db.escalations && forall i :: 0 <= i < |actions| ==> actions[i].id != id
    ensures var t := SetStatus(db, id, Resolved);
            Verdicts(t, actions, now, stale, v) == Verdicts(db, actions, now, stale, v)
            && (Applicable(t, actions, now, stale) <==> Applicable(db, actions, now, stale))
  {
    var t := SetStatus(db, id, Resolved);
    forall i | 0 <= i < |actions| ensures Judge(t, actions[i], now, stale) == Judge(db, actions[i], now, stale) {
    }
    if actions != [] {
      VerdictsFrame(db, id, actions[1..], now, stale, v);
    }
  }

  /** The walk over the rows, as one step: it succeeds exactly when every action is applicable at
      the start, and then resolves exactly the changed ones. */
  lemma {:induction false} ApplyRowsFacts(db: Db, actions: seq<Action>, now: Time, stale: int, done: Report)
    requires DistinctIds(actions) && forall i :: 0 <= i < |actions| ==> ActionValid(actions[i])
    ensures var (t, r) := ApplyRows(db, actions, now, stale, done);
            if Applicable(db, actions, now, stale) then
              && t == WithResolved(db, Ids(Verdicts(db, actions, now, stale, Change)))
              && r == Some(Report(done.changed + Verdicts(db, actions, now, stale, Change),
                                  done.alreadyApplied + Verdicts(db, actions, now, stale, Already)))
            else r.None?
    decreases |actions|
  {
    if actions == [] {
      assert WithResolved(db, {}) == db;
      assert Ids([]) == {};
      assert done.changed + [] == done.changed && done.alreadyApplied + [] == done.alreadyApplied;
    } else {
      var a, rest := actions[0], actions[1..];
      assert forall i :: 0 <= i < |rest| ==> rest[i] == actions[i + 1];
      assert Applicable(db, actions, now, stale)
        <==> Judge(db, a, now, stale) != Mismatch && Applicable(db, rest, now, stale);
      match Judge(db, a, now, stale)
      case Mismatch =>
      case Already =>
        var done' := done.(alreadyApplied := done.alreadyApplied + [a.id]);
        ApplyRowsFacts(db, rest, now, stale, done');
        assert Verdicts(db, actions, now, stale, Change) == Verdicts(db, rest, now, stale, Change);
        assert done.alreadyApplied + ([a.id] + Verdicts(db, rest, now, stale, Already))
            == done'.alreadyApplied + Verdicts(db, rest, now, stale, Already);
      case Change =>
        var done' := done.(changed := done.changed + [a.id]);
        var t := SetStatus(db, a.id, Resolved);
        VerdictsFrame(db, a.id, rest, now, stale, Change);
        VerdictsFrame(db, a.id, rest, now, stale, Already);
        ApplyRowsFacts(t, rest, now, stale, done');
        var changed := Verdicts(db, rest, now, stale, Change);
        assert Verdicts(db, actions, now, stale, Change) == [a.id] + changed;
        assert Verdicts(db, actions, now, stale, Already) == Verdicts(db, rest, now, stale, Already);
        assert done.changed + ([a.id] + changed) == done'.changed + changed;
        assert WithResolved(t, Ids(changed)) == WithResolved(db, Ids([a.id] + changed));
    }
  }

  lemma {:induction false} VerdictsContents(db: Db, actions: seq<Action>, now: Time, stale: int, v: RowVerdict)
    requires DistinctIds(actions)
    ensures NoDup(Verdicts(db, actions, now, stale, v))
    ensures forall id :: id in Verdicts(db, actions, now, stale, v) <==>
              exists i :: 0 <= i < |actions| && actions[i].id == id && Judge(db, actions[i], now, stale) == v
  {
    if actions != [] {
      var rest := actions[1..];
      assert forall i :: 0 <= i < |rest| ==> rest[i] == actions[i + 1];
      VerdictsContents(db, rest, now, stale, v);
      var head := if Judge(db, actions[0], now, stale) == v then [actions[0].id] else [];
      NoDupAppend(head, Verdicts(db, rest, now, stale, v));
      forall id ensures id in Verdicts(db, actions, now, stale, v) <==>
                exists i :: 0 <= i < |actions| && actions[i].id == id && Judge(db, actions[i], now, stale) == v {
        if id in Verdicts(db, rest, now, stale, v) {
          var i :| 0 <= i < |rest| && rest[i].id == id && Judge(db, rest[i], now, stale) == v;
          assert actions[i + 1].id == id;
        }
        if i :| 0 < i < |actions| && actions[i].id == id && Judge(db, actions[i], now, stale) == v {
          assert rest[i - 1].id == id;
        }
      }
    }
  }

  /** Locking the rows in id order neither adds, drops nor repeats an action. */
  lemma SortedActions(actions: seq<Action>)
    requires DistinctIds(actions)
    ensures var sorted := Sort(actions, BY_ACTION_ID);
            DistinctIds(sorted) && |sorted| == |actions| && forall a :: a in sorted <==> a in actions
  {
    var sorted := Sort(actions, BY_ACTION_ID);
    NoDupPermutes(actions, sorted);
    forall i, j | 0 <= i < j < |sorted| ensures sorted[i].id != sorted[j].id {
      assert sorted[i] in actions && sorted[j] in actions;
      var a :| 0 <= a < |actions| && actions[a] == sorted[i];
      var b :| 0 <= b < |actions| && actions[b] == sorted[j];
    }
  }

  ghost predicate ActionWith(db: Db, actions: seq<Action>, now: Time, stale: int, id: Id, v: RowVerdict) {
    exists a :: a in actions && a.id == id && Judge(db, a, now, stale) == v
  }

  /** What a commit means: changed and already-applied ids are those with that verdict, none
      twice, and the database differs only in the changed escalations, now resolved. */
  ghost predicate Commits(db: Db, actions: seq<Action>, now: Time, stale: int, t: Db, r: Report) {
    && NoDup(r.changed) && NoDup(r.alreadyApplied)
    && (forall id :: id in r.changed <==> ActionWith(db, actions, now, stale, id, Change))
    && (forall id :: id in r.alreadyApplied <==> ActionWith(db, actions, now, stale, id, Already))
    && t == WithResolved(db, Ids(r.changed))
  }

  /** A transaction in full. It commits exactly when the manifest is valid, every action matches
      its row, untouched or already resolved, and the database accepts the commit; otherwise the
      database is as it was. */
  lemma TransactionExact(hash: Hash, db: Db, m: Manifest, now: Time, commits: bool)
    ensures var (t, r) := Transact(hash, db, m, now, commits);
            if commits && ManifestValid(hash, m) && Applicable(db, m.actions, now, m.staleAfterDays) then
              r.Some? && Commits(db, m.actions, now, m.staleAfterDays, t, r.value)
            else t == db && r.None?
  {
    if ManifestValid(hash, m) {
      var sorted := Sort(m.actions, BY_ACTION_ID);
      SortedActions(m.actions);
      assert forall i :: 0 <= i < |sorted| ==> sorted[i] in m.actions;
      ApplicableFound(db, m.actions, now, m.staleAfterDays);
      SortedCommits(db, m.actions, sorted, now, m.staleAfterDays);
    }
  }

  lemma ApplicableFound(db: Db, actions: seq<Action>, now: Time, stale: int)
    ensures Applicable(db, actions, now, stale) ==> AllFound(db, actions)
  {
    if Applicable(db, actions, now, stale) {
      forall i | 0 <= i < |actions| ensures Joined(db, actions[i].id) {
        assert Judge(db, actions[i], now, stale) != Mismatch;
      }
    }
  }

  lemma SortedCommits(db: Db, actions: seq<Action>, sorted: seq<Action>, now: Time, stale: int)
    requires DistinctIds(sorted) && forall i :: 0 <= i < |sorted| ==> ActionValid(sorted[i])
    requires forall a :: a in sorted <==> a in actions
    ensures var (t, r) := ApplyRows(db, sorted, now, stale, Report([], []));
            if Applicable(db, actions, now, stale) then
              r.Some? && Commits(db, actions, now, stale, t, r.value)
            else r.None?
  {
    SameApplicable(db, sorted, actions, now, stale);
    ApplyRowsFacts(db, sorted, now, stale, Report([], []));
    VerdictsContents(db, sorted, now, stale, Change);
    VerdictsContents(db, sorted, now, stale, Already);
    VerdictIds(db, sorted, actions, now, stale, Change);
    VerdictIds(db, sorted, actions, now, stale, Already);
    assert [] + Verdicts(db, sorted, now, stale, Change) == Verdicts(db, sorted, now, stale, Change);
    assert [] + Verdicts(db, sorted, now, stale, Already) == Verdicts(db, sorted, now, stale, Already);
  }

  lemma SameApplicable(db: Db, sorted: seq<Action>, actions: seq<Action>, now: Time, stale: int)
    requires forall a :: a in sorted <==> a in actions
    ensures Applicable(db, sorted, now, stale) <==> Applicable(db, actions, now, stale)
  {
    assert forall i :: 0 <= i < |sorted| ==> sorted[i] in actions;
    assert forall i :: 0 <= i < |actions| ==> actions[i] in sorted;
  }

  lemma VerdictIds(db: Db, sorted: seq<Action>, actions: seq<Action>, now: Time, stale: int, v: RowVerdict)
    requires DistinctIds(sorted) && forall a :: a in sorted <==> a in actions
    ensures forall id :: id in Verdicts(db, sorted, now, stale, v) <==> ActionWith(db, actions, now, stale, id, v)
  {
    VerdictsContents(db, sorted, now, stale, v);
    forall id ensures id in Verdicts(db, sorted, now, stale, v) <==> ActionWith(db, actions, now, stale, id, v) {
      if ActionWith(db, actions, now, stale, id, v) {
        var a :| a in actions && a.id == id && Judge(db, a, now, stale) == v;
        var i :| 0 <= i < |sorted| && sorted[i] == a;
      }
    }
  }

  ghost predicate InManifest(m: Manifest, id: Id) { exists a :: a in m.actions && a.id == id }

  /** The committed report partitions the manifest's ids. */
  lemma ReportPartitionsIds(hash: Hash, db: Db, m: Manifest, now: Time, commits: bool)
    requires Transact(hash, db, m, now, commits).1.Some?
    ensures var r := Transact(hash, db, m, now, commits).1.value;
            && (forall id :: id in r.changed || id in r.alreadyApplied <==> InManifest(m, id))
            && (forall id :: !(id in r.changed && id in r.alreadyApplied))
  {
    TransactionExact(hash, db, m, now, commits);
    var (t, r) := Transact(hash, db, m, now, commits);
    forall id ensures id in r.value.changed || id in r.value.alreadyApplied <==> InManifest(m, id) {
      ReportedIff(db, m, now, t, r.value, id);
    }
    forall id ensures !(id in r.value.changed && id in r.value.alreadyApplied) {
      ReportedOnce(db, m, now, t, r.value, id);
    }
  }

  lemma ReportedIff(db: Db, m: Manifest, now: Time, t: Db, r: Report, id: Id)
    requires Applicable(db, m.actions, now, m.staleAfterDays) && Commits(db, m.actions, now, m.staleAfterDays, t, r)
    ensures id in r.changed || id in r.alreadyApplied <==> InManifest(m, id)
  {
    if InManifest(m, id) {
      var a :| a in m.actions && a.id == id;
      var i :| 0 <= i < |m.actions| && m.actions[i] == a;
      assert Judge(db, a, now, m.staleAfterDays) != Mismatch;
    }
  }

  lemma ReportedOnce(db: Db, m: Manifest, now: Time, t: Db, r: Report, id: Id)
    requires DistinctIds(m.actions) && Commits(db, m.actions, now, m.staleAfterDays, t, r)
    ensures !(id in r.changed && id in r.alreadyApplied)
  {
    assert forall a, b :: a in m.actions && b in m.actions && a.id == b.id ==> a == b;
  }

  /** No transaction, committed or not, alters a conversation. */
  lemma ConversationsNeverChange(hash: Hash, db: Db, m: Manifest, now: Time, commits: bool)
    ensures Transact(hash, db, m, now, commits).0.conversations == db.conversations
  {
    TransactionExact(hash, db, m, now, commits);
  }

  /** Committing the same manifest once more, at any time, changes nothing and reports every id as
      already applied. */
  lemma ReapplyChangesNothing(hash: Hash, db: Db, m: Manifest, now: Time, commits: bool, later: Time)
    requires Transact(hash, db, m, now, commits).1.Some?
    ensures var t := Transact(hash, db, m, now, commits).0;
            var (u, r) := Transact(hash, t, m, later, true);
            u == t && r.Some? && r.value.changed == []
            && (forall id :: id in r.value.alreadyApplied <==> InManifest(m, id))
  {
    var t := Transact(hash, db, m, now, commits).0;
    AllAlready(hash, db, m, now, commits, later);
    assert Applicable(t, m.actions, later, m.staleAfterDays) by {
      assert forall i :: 0 <= i < |m.actions| ==> m.actions[i] in m.actions;
    }
    TransactionExact(hash, t, m, later, true);
    var (u, r) := Transact(hash, t, m, later, true);
    NothingToChange(t, m.actions, later, m.staleAfterDays, u, r.value);
    ReportPartitionsIds(hash, t, m, later, true);
  }

  lemma EmptyIfNone(ids: seq<Id>)
    requires Ids(ids) == {}
    ensures ids == []
  {
    forall id: Id ensures id !in multiset(ids) { assert id in multiset(ids) <==> id in Ids(ids); }
    assert multiset(ids) == multiset{};
    assert |multiset(ids)| == |ids|;
  }

  lemma NothingToChange(db: Db, actions: seq<Action>, now: Time, stale: int, t: Db, r: Report)
    requires Commits(db, actions, now, stale, t, r)
    requires forall a :: a in actions ==> Judge(db, a, now, stale) == Already
    ensures r.changed == []
    ensures t == db
  {
    forall id ensures id !in r.changed { assert !ActionWith(db, actions, now, stale, id, Change); }
    var none := Ids(r.changed);
    assert none == {};
    EmptyIfNone(r.changed);
    assert WithResolved(db, none).escalations == db.escalations;
    assert t == WithResolved(db, none);
  }

  lemma NothingAlready(db: Db, actions: seq<Action>, now: Time, stale: int, t: Db, r: Report)
    requires Commits(db, actions, now, stale, t, r)
    requires forall a :: a in actions ==> Judge(db, a, now, stale) == Change
    ensures r.alreadyApplied == []
  {
    forall id ensures id !in r.alreadyApplied { assert !ActionWith(db, actions, now, stale, id, Already); }
    assert Ids(r.alreadyApplied) == {};
    EmptyIfNone(r.alreadyApplied);
  }

  lemma AllAlready(hash: Hash, db: Db, m: Manifest, now: Time, commits: bool, later: Time)
    requires Transact(hash, db, m, now, commits).1.Some?
    ensures ManifestValid(hash, m)
    ensures forall a :: a in m.actions ==>
              Judge(Transact(hash, db, m, now, commits).0, a, later, m.staleAfterDays) == Already
  {
    TransactionExact(hash, db, m, now, commits);
    var (t, r) := Transact(hash, db, m, now, commits);
    forall a | a in m.actions ensures Judge(t, a, later, m.staleAfterDays) == Already {
      var i :| 0 <= i < |m.actions| && m.actions[i] == a;
      OneAlready(db, m.actions, now, m.staleAfterDays, t, r.value, i, later);
    }
  }

  /** What was changed, or was so already, is so now. */
  lemma OneAlready(db: Db, actions: seq<Action>, now: Time, stale: int, t: Db, r: Report, i: nat, later: Time)
    requires i < |actions| && DistinctIds(actions) && ActionValid(actions[i])
    requires Applicable(db, actions, now, stale) && Commits(db, actions, now, stale, t, r)
    ensures Judge(t, actions[i], later, stale) == Already
  {
    var a := actions[i];
    var verdict := Judge(db, a, now, stale);
    assert a in actions && verdict != Mismatch;
    assert ActionWith(db, actions, now, stale, a.id, verdict);
    assert forall b :: b in actions && b.id == a.id ==> b == a;
    assert a.id in r.changed <==> verdict == Change;
  }

  // ----- manifests the builder makes -----

  ghost predicate DistinctRows(rows: seq<Row>) {
    forall i, j :: 0 <= i < j < |rows| ==> rows[i].id != rows[j].id
  }

  lemma {:induction false} FilterPreservesDistinct(rows: seq<Row>, p: Row -> bool)
    requires DistinctRows(rows)
    ensures DistinctRows(Filter(p, rows))
  {
    if rows != [] {
      var rest := rows[1..];
      assert forall i :: 0 <= i < |rest| ==> rest[i] == rows[i + 1];
      FilterPreservesDistinct(rest, p);
      if p(rows[0]) { DistinctHead(rows[0], rest, Filter(p, rest)); }
    }
  }

  lemma DistinctHead(head: Row, rest: seq<Row>, tail: seq<Row>)
    requires DistinctRows(tail) && (forall r :: r in tail ==> r in rest)
    requires forall i :: 0 <= i < |rest| ==> rest[i].id != head.id
    ensures DistinctRows([head] + tail)
  {
    forall i | 0 <= i < |tail| ensures tail[i].id != head.id {
      var r := tail[i];
      assert r in tail && r in rest;
    }
  }

  lemma SortedRows(rows: seq<Row>)
    requires DistinctRows(rows)
    ensures DistinctRows(Sort(rows, BY_ID))
  {
    var sorted := Sort(rows, BY_ID);
    NoDupPermutes(rows, sorted);
    forall i, j | 0 <= i < j < |sorted| ensures sorted[i].id != sorted[j].id {
      assert sorted[i] in rows && sorted[j] in rows;
      var a :| 0 <= a < |rows| && rows[a] == sorted[i];
      var b :| 0 <= b < |rows| && rows[b] == sorted[j];
    }
  }

  /** The builder's actions are exactly the rows that classify as safe to resolve, and its
      manifest is always valid. */
  lemma BuiltManifest(hash: Hash, rows: seq<Row>, now: Time, stale: int, rest: nat)
    requires DistinctRows(rows) && stale >= 1
    ensures var m := Build(hash, rows, now, stale, rest);
            && ManifestValid(hash, m)
            && (forall a :: a in m.actions <==> exists r :: r in rows && Resolving(now, stale)(r) && a == ActionOf(r))
  {
    var kept := Filter(Resolving(now, stale), Sort(rows, BY_ID));
    SortedRows(rows);
    FilterPreservesDistinct(Sort(rows, BY_ID), Resolving(now, stale));
    var p := Resolving(now, stale);
    assert forall r :: r in kept <==> r in rows && p(r);
    KeptAreValid(kept, now, stale);
    MappedContents(kept, rows, p);
  }

  lemma KeptAreValid(kept: seq<Row>, now: Time, stale: int)
    requires DistinctRows(kept) && forall r :: r in kept ==> Resolving(now, stale)(r)
    ensures var actions := MapSeq(ActionOf, kept);
            DistinctIds(actions) && forall i :: 0 <= i < |actions| ==> ActionValid(actions[i])
  {
    var actions := MapSeq(ActionOf, kept);
    forall i | 0 <= i < |actions| ensures ActionValid(actions[i]) {
      var r := kept[i];
      assert r in kept && actions[i] == ActionOf(r);
    }
  }

  lemma MappedContents(kept: seq<Row>, rows: seq<Row>, p: Row -> bool)
    requires forall r :: r in kept <==> r in rows && p(r)
    ensures forall a :: a in MapSeq(ActionOf, kept) <==> exists r :: r in rows && p(r) && a == ActionOf(r)
  {
    var actions := MapSeq(ActionOf, kept);
    forall a ensures a in actions <==> exists r :: r in rows && p(r) && a == ActionOf(r) {
      if a in actions {
        var i :| 0 <= i < |actions| && actions[i] == a;
        var r := kept[i];
        assert r in kept && a == ActionOf(r);
      }
      if r :| r in rows && p(r) && a == ActionOf(r) {
        assert r in kept;
        var i :| 0 <= i < |kept| && kept[i] == r;
        assert actions[i] == a;
      }
    }
  }

  /** Built from the database's own rows and applied to it at the same time or later, a manifest
      commits and changes every id it lists. */
  lemma BuildThenApply(hash: Hash, db: Db, rows: seq<Row>, now: Time, later: Time, stale: int, rest: nat)
    requires DistinctRows(rows) && stale >= 1 && now <= later
    requires forall r :: r in rows ==> Joined(db, r.id) && r == RowOf(db, r.id)
    ensures var m := Build(hash, rows, now, stale, rest);
            var r := Transact(hash, db, m, later, true).1;
            r.Some? && r.value.alreadyApplied == [] && forall id :: id in r.value.changed <==> InManifest(m, id)
  {
    var m := Build(hash, rows, now, stale, rest);
    BuiltManifest(hash, rows, now, stale, rest);
    forall a | a in m.actions ensures Judge(db, a, later, stale) == Change {
      var r :| r in rows && Resolving(now, stale)(r) && a == ActionOf(r);
      AgeGrows(now, later, r.escalation.created);
    }
    assert Applicable(db, m.actions, later, stale) by {
      assert forall i :: 0 <= i < |m.actions| ==> m.actions[i] in m.actions;
    }
    TransactionExact(hash, db, m, later, true);
    var (t, r) := Transact(hash, db, m, later, true);
    NothingAlready(db, m.actions, later, stale, t, r.value);
    ReportPartitionsIds(hash, db, m, later, true);
  }

  /** The rows that may be resolved without a human: pending ones whose conversation is closed and
      resolved, or active and unpaused with the row at least the given number of days old. */
  lemma ResolvableIff(s: States, created: Time, now: Time, stale: int)
    requires stale >= 1
    ensures Classify(s, created, now, stale) == Resolve <==>
              && s.escalation == Pending
              && ((s.conversation == Closed && s.conversationEscalation == Resolved)
                  || (&& s.conversation == Active && s.conversationEscalation == NoEscalation
                      && now - created >= stale * 86400))
  {
    var age := now - created;
    if age >= 0 {
      assert age == 86400 * (age / 86400) + age % 86400;
      assert age / 86400 >= stale <==> age >= stale * 86400;
    }
  }

  lemma AgeGrows(now: Time, later: Time, created: Time)
    requires now <= later
    ensures AgeInDays(now, created) <= AgeInDays(later, created)
  {
  }
}
