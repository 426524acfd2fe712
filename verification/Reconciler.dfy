/** The reconciliation program: a builder loop, and a database session whose rows are updated one
    by one and then committed or rolled back as a whole. */
module Reconciler {
  import opened Prelude
  import opened Sorting
  import opened Reconciliation

  /** Walks the rows in id order, collecting the actions that are safe. */
  method BuildManifest(hash: Hash, rows: seq<Row>, now: Time, staleAfterDays: int, rest: nat) returns (m: Manifest)
    ensures m == Build(hash, rows, now, staleAfterDays, rest)
  {
    var sorted := Sort(rows, BY_ID);
    var p := Resolving(now, staleAfterDays);
    var actions: seq<Action> := [];
    for i := 0 to |sorted|
      invariant actions == MapSeq(ActionOf, Filter(p, sorted[..i]))
    {
      NextBuilt(sorted, i, p);
      if p(sorted[i]) { actions := actions + [ActionOf(sorted[i])]; }
    }
    assert sorted[..|sorted|] == sorted;
    m := Manifest(true, staleAfterDays, actions, rest, hash(staleAfterDays, actions, rest));
  }

  lemma NextBuilt(rows: seq<Row>, i: nat, p: Row -> bool)
    requires i < |rows|
    ensures MapSeq(ActionOf, Filter(p, rows[..i + 1]))
         == MapSeq(ActionOf, Filter(p, rows[..i])) + if p(rows[i]) then [ActionOf(rows[i])] else []
  {
    var row, before := rows[i], rows[..i];
    FilterAppend(p, before, [row]);
    assert rows[..i + 1] == before + [row];
    FilterOne(p, row);
    MapAppend(Filter(p, before), Filter(p, [row]));
  }

  lemma FilterOne(p: Row -> bool, row: Row)
    ensures Filter(p, [row]) == if p(row) then [row] else []
    ensures MapSeq(ActionOf, Filter(p, [row])) == if p(row) then [ActionOf(row)] else []
  {
    assert [row][1..] == [];
  }

  lemma MapAppend(a: seq<Row>, b: seq<Row>)
    ensures MapSeq(ActionOf, a + b) == MapSeq(ActionOf, a) + MapSeq(ActionOf, b)
  {
  }

  class Session {
    var escalations: map<Id, Escalation>
    var conversations: map<Id, Conversation>
    var committed: Db

    function View(): Db
      reads this
    {
      Db(escalations, conversations)
    }

    constructor (db: Db)
      ensures View() == db && committed == db
    {
      escalations, conversations, committed := db.escalations, db.conversations, db;
    }

    /** Makes the pending changes durable, if the database accepts the commit. */
    method Commit(commits: bool) returns (ok: bool)
      modifies this`committed
      ensures ok == commits && committed == if ok then View() else old(committed)
    {
      if commits { committed := View(); }
      ok := commits;
    }

    method Rollback()
      modifies this`escalations, this`conversations
      ensures View() == committed
    {
      escalations, conversations := committed.escalations, committed.conversations;
    }

    /** Checks every row against its action and resolves it in place, up to the first mismatch. */
    method ApplyManifest(hash: Hash, m: Manifest, now: Time) returns (report: Option<Report>)
      modifies this`escalations
      ensures (View(), report) == Apply(hash, old(View()), m, now)
    {
      if !ManifestValid(hash, m) || !AllFound(View(), m.actions) { return None; }
      var rows := Sort(m.actions, BY_ACTION_ID);
      var done := Report([], []);
      while rows != []
        invariant ApplyRows(View(), rows, now, m.staleAfterDays, done) == Apply(hash, old(View()), m, now)
        decreases |rows|
      {
        var a := rows[0];
        match Judge(View(), a, now, m.staleAfterDays) {
          case Mismatch => return None;
          case Already => done := done.(alreadyApplied := done.alreadyApplied + [a.id]);
          case Change =>
            escalations := escalations[a.id := escalations[a.id].(status := a.target.escalation)];
            done := done.(changed := done.changed + [a.id]);
        }
        rows := rows[1..];
      }
      return Some(done);
    }

    /** Whatever goes wrong, in a row or in the commit, leaves the last committed state. */
    method ApplyInTransaction(hash: Hash, m: Manifest, now: Time, commits: bool) returns (report: Option<Report>)
      requires committed == View()
      modifies this
      ensures (View(), report) == Transact(hash, old(View()), m, now, commits)
      ensures committed == View()
    {
      report := ApplyManifest(hash, m, now);
      if report.Some? {
        var ok := Commit(commits);
        if ok { return; }
      }
      Rollback();
      report := None;
    }
  }
}
