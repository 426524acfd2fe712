/** Reconciling stale escalations: a manifest built from pending rows, validated, and applied
    inside one transaction. */
module Reconciliation {
  import opened Prelude
  import opened Sorting

  type Id = Name
  type Time = int

  datatype EscalationStatus =
    NoEscalation | Pending | InProgress | Resolved | ManualTakeover | OtherEscalation(code: nat)

  datatype ConversationStatus = Active | Closed | OtherConversation(code: nat)

  datatype Escalation = Escalation(conversation: Id, status: EscalationStatus, created: Time)

  datatype Conversation = Conversation(status: ConversationStatus, escalation: EscalationStatus)

  datatype Db = Db(escalations: map<Id, Escalation>, conversations: map<Id, Conversation>)

  /** The three states a manifest compares. */
  datatype States = States(
    escalation: EscalationStatus, conversation: ConversationStatus, conversationEscalation: EscalationStatus)

  datatype Action = Action(id: Id, conversation: Id, expected: States, target: States)

  /** An archived manifest; `rest` stands for its audit records and summary. */
  datatype Manifest = Manifest(knownSchema: bool, staleAfterDays: int, actions: seq<Action>, rest: nat, digest: nat)

  /** The manifest digest over everything but itself. */
  type Hash = (int, seq<Action>, nat) -> nat

  datatype Report = Report(changed: seq<Id>, alreadyApplied: seq<Id>)

  datatype Verdict = Resolve | Review

  // ----- classification -----

  function AgeInDays(now: Time, created: Time): nat {
    if now < created then 0 else (now - created) / 86400
  }

  function Classify(s: States, created: Time, now: Time, staleAfterDays: int): Verdict {
    if s.escalation != Pending then Review
    else if s.conversation == Closed && s.conversationEscalation == Resolved then Resolve
    else if s.conversation == Active && s.conversationEscalation == NoEscalation then
      if AgeInDays(now, created) >= staleAfterDays then Resolve else Review
    else Review
  }

  // ----- building -----

  /** A row of the join of an escalation with its conversation. */
  datatype Row = Row(id: Id, escalation: Escalation, conversation: Conversation)

  function StatesOf(r: Row): States {
    States(r.escalation.status, r.conversation.status, r.conversation.escalation)
  }

  function Resolving(now: Time, staleAfterDays: int): Row -> bool {
    (r: Row) => Classify(StatesOf(r), r.escalation.created, now, staleAfterDays) == Resolve
  }

  function ActionOf(r: Row): Action {
    var s := StatesOf(r);
    Action(r.id, r.escalation.conversation, s, s.(escalation := Resolved))
  }

  const BY_ID: (Row, Row) -> bool := (a: Row, b: Row) => a.id <= b.id

  function BuiltActions(rows: seq<Row>, now: Time, staleAfterDays: int): seq<Action> {
    MapSeq(ActionOf, Filter(Resolving(now, staleAfterDays), Sort(rows, BY_ID)))
  }

  function Build(hash: Hash, rows: seq<Row>, now: Time, staleAfterDays: int, rest: nat): Manifest {
    var actions := BuiltActions(rows, now, staleAfterDays);
    Manifest(true, staleAfterDays, actions, rest, hash(staleAfterDays, actions, rest))
  }

  // ----- applying -----

  predicate ActionValid(a: Action) {
    && a.expected.escalation == Pending && a.target.escalation == Resolved
    && a.target.conversation == a.expected.conversation
    && a.target.conversationEscalation == a.expected.conversationEscalation
  }

  predicate DistinctIds(actions: seq<Action>) {
    forall i, j :: 0 <= i < j < |actions| ==> actions[i].id != actions[j].id
  }

  predicate ManifestValid(hash: Hash, m: Manifest) {
    && m.knownSchema && m.digest == hash(m.staleAfterDays, m.actions, m.rest) && m.staleAfterDays >= 1
    && DistinctIds(m.actions)
    && forall i :: 0 <= i < |m.actions| ==> ActionValid(m.actions[i])
  }

  /** The escalation and its conversation both exist. */
  predicate Joined(db: Db, id: Id) {
    id in db.escalations && db.escalations[id].conversation in db.conversations
  }

  function RowOf(db: Db, id: Id): Row
    requires Joined(db, id)
  {
    Row(id, db.escalations[id], db.conversations[db.escalations[id].conversation])
  }

  datatype RowVerdict = Change | Already | Mismatch

  /** What applying one action to its row would do. */
  function Judge(db: Db, a: Action, now: Time, staleAfterDays: int): RowVerdict {
    if !Joined(db, a.id) then Mismatch
    else
      var r := RowOf(db, a.id);
      if r.escalation.conversation != a.conversation then Mismatch
      else if StatesOf(r) == a.target then Already
      else if StatesOf(r) != a.expected then Mismatch
      else if Classify(StatesOf(r), r.escalation.created, now, staleAfterDays) != Resolve then Mismatch
      else Change
  }

  function SetStatus(db: Db, id: Id, status: EscalationStatus): Db
    requires id in db.escalations
  {
    db.(escalations := db.escalations[id := db.escalations[id].(status := status)])
  }

  const BY_ACTION_ID: (Action, Action) -> bool := (a: Action, b: Action) => a.id <= b.id

  /** Walks the locked rows in order, changing status after status; none on the first mismatch. */
  function ApplyRows(db: Db, actions: seq<Action>, now: Time, staleAfterDays: int, done: Report): (Db, Option<Report>)
    decreases |actions|
  {
    if actions == [] then (db, Some(done))
    else
      var a := actions[0];
      match Judge(db, a, now, staleAfterDays)
      case Mismatch => (db, None)
      case Already =>
        ApplyRows(db, actions[1..], now, staleAfterDays, done.(alreadyApplied := done.alreadyApplied + [a.id]))
      case Change =>
        ApplyRows(SetStatus(db, a.id, a.target.escalation), actions[1..], now, staleAfterDays,
                  done.(changed := done.changed + [a.id]))
  }

  predicate AllFound(db: Db, actions: seq<Action>) {
    forall i :: 0 <= i < |actions| ==> Joined(db, actions[i].id)
  }

  /** The session's view of the database after applying, and the report; none on failure. */
  function Apply(hash: Hash, db: Db, m: Manifest, now: Time): (Db, Option<Report>) {
    if !ManifestValid(hash, m) || !AllFound(db, m.actions) then (db, None)
    else ApplyRows(db, Sort(m.actions, BY_ACTION_ID), now, m.staleAfterDays, Report([], []))
  }

  /** One transaction: committed as a whole, or rolled back to where it began, also when the
      database refuses the commit itself. */
  function Transact(hash: Hash, db: Db, m: Manifest, now: Time, commits: bool): (Db, Option<Report>) {
    var r := Apply(hash, db, m, now);
    if r.1.Some? && commits then r else (db, None)
  }
}
